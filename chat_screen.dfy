/** The chat screen's voice agent and input guards: the transcript-driven
    keyword agent (`handleSpeechResult`) over the agent-mode switch and the
    status `IDLE | ACTIVE | PROCESSING`, the note-content extraction, the
    agent button, the recognizer's `isListening` prop, and the guarded
    `sendMessage` and `saveNote`. Calls to the server and to speech output
    are recorded as effects; their answers are parameters. */
module ChatScreen {
  import opened Wrappers
  import opened Text
  import SpeechRecognizer

  datatype Status = Idle | Active | Processing

  datatype Sender = User | Ai

  /** A chat bubble (its clock-derived id is not modelled). */
  datatype Message = Message(text: string, sender: Sender)

  /** What the screen does outside itself. */
  datatype Effect =
    | Spoke(text: string)        // Speech.speak
    | SpeechStopped              // Speech.stop
    | ChatPosted(message: string)   // POST {SERVER_URL}/chat with { message }
    | NotePosted(content: string)   // POST {SERVER_URL}/notes with { content }
    | Alerted(text: string)      // alert

  const ErrorReply := "Error connecting to AI."

  // Keywords

  predicate IsWakeWord(lower: string) {
    Contains(lower, "ginger") || Contains(lower, "danger") || Contains(lower, "ninja")
  }

  predicate IsStopWord(lower: string) {
    Contains(lower, "stop") || Contains(lower, "cancel") || Contains(lower, "thank you")
  }

  predicate IsNotePhrase(lower: string) {
    Contains(lower, "create a note") || Contains(lower, "save a note") || Contains(lower, "take a note")
  }

  const RequestOpening := "[AGENT_MODE] User said: \""
  const RequestClosing :=
    "\". If they want to create a note, extract content and reply \"Saving note: <content>\". If just chatting, reply normally."

  /** The message sent to the chat endpoint for a note phrase: the
      transcript as spoken, between the two fixed parts. */
  function AgentRequest(text: string): (m: string)
    ensures |m| == |RequestOpening| + |text| + |RequestClosing|
    ensures StartsWith(m, RequestOpening) && EndsWith(m, RequestClosing)
    ensures m[|RequestOpening|..|RequestOpening| + |text|] == text
  {
    var m := RequestOpening + text + RequestClosing;
    assert m[..|RequestOpening|] == RequestOpening;
    assert m[|m| - |RequestClosing|..] == RequestClosing;
    assert m[|RequestOpening|..|RequestOpening| + |text|] == text;
    m
  }

  /** A note is saved only for a reply that says "saving note", in any case. */
  predicate ReplySavesNote(reply: string) {
    Contains(Lower(reply), "saving note")
  }

  // The note-content extraction: lower.replace(/.*(note saying|note that|note)\s+/, '')

  /** "note" followed by a whitespace character starts at `k`. */
  predicate NoteAt(s: string, k: int) {
    0 <= k && k + 5 <= |s| && s[k..k + 4] == "note" && IsSpace(s[k + 4])
  }

  predicate NoLineBreak(s: string) {
    forall k :: 0 <= k < |s| ==> !IsLineTerminator(s[k])
  }

  /** The first line terminator at or after `i`, or the end. */
  function LineEnd(s: string, i: nat): (e: nat)
    requires i <= |s|
    ensures i <= e <= |s| && (e == |s| || IsLineTerminator(s[e]))
    ensures forall k :: i <= k < e ==> !IsLineTerminator(s[k])
    decreases |s| - i
  {
    if i == |s| || IsLineTerminator(s[i]) then i else LineEnd(s, i + 1)
  }

  /** The rightmost `k` in `[i, e)` where "note" and a whitespace character
      start: where the greedy `.*` stops. */
  function LastNoteBefore(s: string, i: nat, e: nat): (r: Option<nat>)
    requires i <= e <= |s|
    ensures r.Some? ==> i <= r.value < e && NoteAt(s, r.value)
                        && forall j :: r.value < j < e ==> !NoteAt(s, j)
    ensures r.None? ==> forall j :: i <= j < e ==> !NoteAt(s, j)
    decreases e - i
  {
    if e == i then None
    else if NoteAt(s, e - 1) then Some(e - 1)
    else LastNoteBefore(s, i, e - 1)
  }

  /** Where the alternation ends at `k`: "note saying" and "note that" are
      tried first, each only when whitespace follows it, then "note". */
  function AltEnd(s: string, k: nat): (j: nat)
    requires NoteAt(s, k)
    ensures k + 4 <= j < |s| && IsSpace(s[j])
    ensures j == k + 11 <==> OccursAt(s, "note saying", k) && k + 11 < |s| && IsSpace(s[k + 11])
    ensures j == k + 9 <==> !(OccursAt(s, "note saying", k) && k + 11 < |s| && IsSpace(s[k + 11]))
                            && OccursAt(s, "note that", k) && k + 9 < |s| && IsSpace(s[k + 9])
  {
    if OccursAt(s, "note saying", k) && k + 11 < |s| && IsSpace(s[k + 11]) then k + 11
    else if OccursAt(s, "note that", k) && k + 9 < |s| && IsSpace(s[k + 9]) then k + 9
    else k + 4
  }

  /** The end of the whitespace run at `j`: what the greedy `\s+` consumes. */
  function SkipSpace(s: string, j: nat): (r: nat)
    requires j <= |s|
    ensures j <= r <= |s| && AllSpace(s[j..r]) && (r == |s| || !IsSpace(s[r]))
    decreases |s| - j
  {
    if j < |s| && IsSpace(s[j]) then SkipSpace(s, j + 1) else j
  }

  /** The whole replacement. The leftmost match starts at the beginning of
      the first line that holds "note" followed by whitespace, since `.`
      does not cross a line terminator; it runs through the rightmost such
      "note" in that line, the preferred alternative and the whitespace
      after it, and is deleted. */
  function ExtractNoteContent(s: string): string
    decreases |s|
  {
    var e := LineEnd(s, 0);
    match LastNoteBefore(s, 0, e)
    case Some(k) => s[SkipSpace(s, AltEnd(s, k))..]
    case None => if e == |s| then s else s[..e + 1] + ExtractNoteContent(s[e + 1..])
  }

  /** A suffix of a transcript without "note" followed by whitespace has
      none either. */
  lemma NoNoteInSuffix(s: string, i: nat)
    requires i <= |s| && forall k :: !NoteAt(s, k)
    ensures forall k :: !NoteAt(s[i..], k)
  {
    forall k ensures !NoteAt(s[i..], k) {
      if 0 <= k && k + 5 <= |s[i..]| {
        assert s[i..][k..k + 4] == s[i + k..i + k + 4];
        assert !NoteAt(s, i + k);
      }
    }
  }

  /** A transcript without "note" followed by whitespace is unchanged. */
  lemma {:induction false} ExtractWithoutNote(s: string)
    requires forall k :: !NoteAt(s, k)
    ensures ExtractNoteContent(s) == s
    decreases |s|
  {
    var e := LineEnd(s, 0);
    var r := LastNoteBefore(s, 0, e);
    assert r.None?;
    if e < |s| {
      NoNoteInSuffix(s, e + 1);
      ExtractWithoutNote(s[e + 1..]);
      assert ExtractNoteContent(s) == s[..e + 1] + s[e + 1..];
    }
  }

  /** On one line the rightmost "note" followed by whitespace decides: the
      content is what follows it, the preferred alternative and the
      whitespace after them. */
  lemma ExtractFromRightmostNote(s: string, k: nat)
    requires NoLineBreak(s) && NoteAt(s, k)
    requires forall j :: k < j ==> !NoteAt(s, j)
    ensures ExtractNoteContent(s) == s[SkipSpace(s, AltEnd(s, k))..]
  {
    var e := LineEnd(s, 0);
    assert e == |s|;
    var r := LastNoteBefore(s, 0, e);
    assert r == Some(k);
  }

  /** What is left after a match on one line is a suffix with no leading
      whitespace and holds no further "note" followed by whitespace, so a
      second extraction changes nothing. */
  lemma ExtractedIsFinal(s: string, k: nat)
    requires NoLineBreak(s) && NoteAt(s, k)
    requires forall j :: k < j ==> !NoteAt(s, j)
    ensures var c := ExtractNoteContent(s);
      (c == [] || !IsSpace(c[0])) && (forall j :: !NoteAt(c, j)) && ExtractNoteContent(c) == c
  {
    ExtractFromRightmostNote(s, k);
    var m := SkipSpace(s, AltEnd(s, k));
    var c := s[m..];
    forall j ensures !NoteAt(c, j) {
      if NoteAt(c, j) {
        assert s[m + j..m + j + 4] == c[j..j + 4];
        assert NoteAt(s, m + j);
      }
    }
    ExtractWithoutNote(c);
  }

  /** Extraction is idempotent on transcripts without line breaks. */
  lemma ExtractIdempotent(s: string)
    requires NoLineBreak(s)
    ensures ExtractNoteContent(ExtractNoteContent(s)) == ExtractNoteContent(s)
  {
    var r := LastNoteBefore(s, 0, |s|);
    if r.Some? {
      ExtractedIsFinal(s, r.value);
    } else {
      ExtractWithoutNote(s);
    }
  }

  // The agent's reaction to one transcript

  datatype Reaction =
    | Ignore           // nothing happens
    | Wake             // IDLE -> ACTIVE, say "Yes?"
    | TurnOff          // say "Turning off.", agent mode off, IDLE
    | RequestNote      // ACTIVE -> PROCESSING, ask the chat endpoint

  /** Which branch of `handleSpeechResult` a transcript takes. */
  function React(agentMode: bool, status: Status, text: string): (r: Reaction)
    // Off, or busy: nothing.
    ensures !agentMode || status == Processing ==> r == Ignore
    // IDLE: only a wake word does anything.
    ensures agentMode && status == Idle ==> (r == Wake <==> IsWakeWord(Lower(text))) && r in {Wake, Ignore}
    // ACTIVE: a stop word wins over a note phrase; anything else keeps listening.
    ensures agentMode && status == Active ==>
      (r == TurnOff <==> IsStopWord(Lower(text)))
      && (r == RequestNote <==> !IsStopWord(Lower(text)) && IsNotePhrase(Lower(text)))
      && r != Wake
  {
    var lower := Lower(text);
    if !agentMode || status == Processing then Ignore
    else if status == Idle then (if IsWakeWord(lower) then Wake else Ignore)
    else if IsStopWord(lower) then TurnOff
    else if IsNotePhrase(lower) then RequestNote
    else Ignore
  }

  /** The `isListening` prop handed to the recognizer: agent mode is on and
      no request is out. */
  function IsListening(agentMode: bool, status: Status): (b: bool)
    ensures b <==> agentMode && status != Processing
  {
    agentMode && status != Processing
  }

  /** What the recognizer goes through when the screen moves from one
      state to the next. It is rendered only while agent mode is on, so
      turning the mode on mounts a fresh recognizer, whose page starts
      recognition by itself, and turning it off unmounts it; only while the
      mode stays on does a change of the prop reach `componentDidUpdate`. */
  datatype RecognizerEvent =
    | Absent                                            // not rendered before or after
    | Mounted(listening: bool)                          // rendered with this prop
    | Unmounted                                         // removed while rendered
    | Updated(command: Option<SpeechRecognizer.Command>)   // prop update of a mounted recognizer

  function RecognizerEventOf(modeBefore: bool, statusBefore: Status, modeAfter: bool, statusAfter: Status): (e: RecognizerEvent)
    ensures e == Absent <==> !modeBefore && !modeAfter
    ensures e.Mounted? <==> !modeBefore && modeAfter
    ensures e.Mounted? ==> (e.listening <==> statusAfter != Processing)
    ensures e == Unmounted <==> modeBefore && !modeAfter
    // A mounted recognizer is sent a command exactly when the prop flips,
    // and the command follows the prop's new value.
    ensures e.Updated? <==> modeBefore && modeAfter
    ensures e.Updated? ==> (e.command.Some? <==> (statusBefore == Processing) != (statusAfter == Processing))
    ensures e.Updated? && e.command.Some? ==>
      (e.command.value == SpeechRecognizer.StartRecognition <==> statusAfter != Processing)
  {
    if !modeBefore && !modeAfter then Absent
    else if !modeBefore then Mounted(IsListening(modeAfter, statusAfter))
    else if !modeAfter then Unmounted
    else Updated(SpeechRecognizer.DidUpdate(IsListening(modeBefore, statusBefore), IsListening(modeAfter, statusAfter), true))
  }

  /** What each reaction does to the recognizer, from the state before the
      transcript to the state `HandleSpeechResult` leaves: turning off
      removes it, a note request stops recognition, and a wake word or an
      ignored transcript sends nothing. */
  lemma ReactionDrivesRecognizer(agentMode: bool, status: Status, text: string)
    ensures match React(agentMode, status, text)
      case Ignore => RecognizerEventOf(agentMode, status, agentMode, status) == (if agentMode then Updated(None) else Absent)
      case Wake => RecognizerEventOf(agentMode, status, true, Active) == Updated(None)
      case TurnOff => RecognizerEventOf(agentMode, status, false, Idle) == Unmounted
      case RequestNote =>
        RecognizerEventOf(agentMode, status, true, Processing) == Updated(Some(SpeechRecognizer.StopRecognition))
  {
  }

  /** When the answer to a note request is handled, recognition is started
      again exactly when agent mode is still on; with the mode off there is
      no recognizer to start. */
  lemma AnswerRestartsRecognizer(agentMode: bool)
    ensures RecognizerEventOf(agentMode, Processing, agentMode, Idle)
      == (if agentMode then Updated(Some(SpeechRecognizer.StartRecognition)) else Absent)
  {
  }

  /** The agent button: turning agent mode on mounts a recognizer whose prop
      is already true, so its page's own start agrees with the prop;
      turning it off removes the recognizer whatever the status was. */
  lemma ToggleDrivesRecognizer(agentMode: bool, status: Status)
    requires !agentMode ==> status == Idle
    ensures !agentMode ==> RecognizerEventOf(false, status, true, status) == Mounted(true)
    ensures agentMode ==> RecognizerEventOf(true, status, false, Idle) == Unmounted
  {
  }

  class Screen {
    var messages: seq<Message>
    var isAgentMode: bool
    var agentStatus: Status
    var input: string
    var loading: bool
    var noteText: string
    var showNoteInput: bool
    var effects: seq<Effect>

    /** Agent mode off means IDLE: every operation keeps this. */
    predicate Valid()
      reads this
    {
      !isAgentMode ==> agentStatus == Idle
    }

    constructor ()
      ensures Valid()
      ensures messages == [] && !isAgentMode && agentStatus == Idle && input == ""
      ensures !loading && noteText == "" && !showNoteInput && effects == []
    {
      messages, isAgentMode, agentStatus, input := [], false, Idle, "";
      loading, noteText, showNoteInput, effects := false, "", false, [];
    }

    /** The agent button: on turns off (IDLE, speech stopped); off turns on
        and leaves the status as it is. */
    method Toggle()
      requires Valid()
      modifies this
      ensures Valid()
      ensures isAgentMode == !old(isAgentMode)
      ensures old(isAgentMode) ==> agentStatus == Idle && effects == old(effects) + [SpeechStopped]
      ensures !old(isAgentMode) ==> agentStatus == old(agentStatus) == Idle && effects == old(effects)
      ensures messages == old(messages) && input == old(input) && loading == old(loading)
      ensures noteText == old(noteText) && showNoteInput == old(showNoteInput)
    {
      if isAgentMode {
        isAgentMode := false;
        agentStatus := Idle;
        effects := effects + [SpeechStopped];
      } else {
        isAgentMode := true;
      }
    }

    /** `handleSpeechResult` up to its `await`: the branch `React` picks. For
        a note phrase the status becomes PROCESSING, the request is posted
        with the original text, and `true` says the answer is awaited
        (`FinishNoteRequest`). */
    method HandleSpeechResult(text: string) returns (awaiting: bool)
      requires Valid()
      modifies this
      ensures Valid()
      ensures awaiting <==> old(React(isAgentMode, agentStatus, text)) == RequestNote
      ensures match old(React(isAgentMode, agentStatus, text))
        case Ignore =>
          isAgentMode == old(isAgentMode) && agentStatus == old(agentStatus) && effects == old(effects)
        case Wake =>
          isAgentMode && agentStatus == Active && effects == old(effects) + [Spoke("Yes?")]
        case TurnOff =>
          !isAgentMode && agentStatus == Idle && effects == old(effects) + [Spoke("Turning off.")]
        case RequestNote =>
          isAgentMode && agentStatus == Processing && effects == old(effects) + [ChatPosted(AgentRequest(text))]
      ensures messages == old(messages) && input == old(input) && loading == old(loading)
      ensures noteText == old(noteText) && showNoteInput == old(showNoteInput)
    {
      awaiting := false;
      ghost var reaction := React(isAgentMode, agentStatus, text);
      if !isAgentMode || agentStatus == Processing {
        return;
      }
      var lower := Lower(text);
      if agentStatus == Idle {
        if IsWakeWord(lower) {
          assert reaction == Wake;
          agentStatus := Active;
          effects := effects + [Spoke("Yes?")];
        }
      } else if agentStatus == Active {
        if IsStopWord(lower) {
          assert reaction == TurnOff;
          effects := effects + [Spoke("Turning off.")];
          isAgentMode := false;
          agentStatus := Idle;
          return;
        }
        if IsNotePhrase(lower) {
          assert reaction == RequestNote;
          agentStatus := Processing;
          effects := effects + [ChatPosted(AgentRequest(text))];
          awaiting := true;
        }
      }
    }

    /** The rest of `handleSpeechResult` once the chat endpoint answered
        (`reply`) or failed: speak the reply; for a "saving note" reply post
        the extracted content; on any failure say sorry; and in every case
        end IDLE. */
    method FinishNoteRequest(text: string, reply: Result<string, string>, noteStored: bool)
      requires Valid()
      modifies this
      ensures Valid()
      ensures agentStatus == Idle && isAgentMode == old(isAgentMode)
      ensures effects == old(effects) + NoteRequestEffects(text, reply, noteStored)
      ensures messages == old(messages) && input == old(input) && loading == old(loading)
      ensures noteText == old(noteText) && showNoteInput == old(showNoteInput)
    {
      match reply {
        case Err(_) =>
          effects := effects + [Spoke("Sorry, I had an issue.")];
        case Ok(r) =>
          effects := effects + [Spoke(r)];
          if ReplySavesNote(r) {
            var content := ExtractNoteContent(Lower(text));
            effects := effects + [NotePosted(content)];
            if !noteStored {
              effects := effects + [Spoke("Sorry, I had an issue.")];
            }
          }
      }
      agentStatus := Idle;
    }

    /** `sendMessage`: blank text (what `trim` empties, by
        `TrimEmptyIffBlank`) is ignored; otherwise the user's message is
        appended, the input cleared, and then exactly one answer: the reply
        or the error bubble. */
    method SendMessage(text: string, reply: Result<string, string>)
      requires Valid()
      modifies this
      ensures Valid()
      ensures AllSpace(text) ==>
        messages == old(messages) && input == old(input) && effects == old(effects) && loading == old(loading)
      ensures !AllSpace(text) ==>
        messages == old(messages) + [Message(text, User), Message(AnswerText(reply), Ai)]
        && input == "" && effects == old(effects) + [ChatPosted(text)] && !loading
      ensures isAgentMode == old(isAgentMode) && agentStatus == old(agentStatus)
      ensures noteText == old(noteText) && showNoteInput == old(showNoteInput)
    {
      if !AllSpace(text) {
        messages := messages + [Message(text, User)];
        input := "";
        loading := true;
        effects := effects + [ChatPosted(text)];
        var answer: string;
        match reply {
          case Ok(r) => answer := r;
          case Err(_) => answer := ErrorReply;
        }
        messages := messages + [Message(answer, Ai)];
        loading := false;
      }
    }

    /** `saveNote`: blank note text (what `trim` empties) is ignored; otherwise it is posted, and
        only a successful save clears and hides the note input. */
    method SaveNote(stored: bool)
      requires Valid()
      modifies this
      ensures Valid()
      ensures AllSpace(old(noteText)) ==> noteText == old(noteText) && showNoteInput == old(showNoteInput) && effects == old(effects)
      ensures !AllSpace(old(noteText)) ==>
        effects == old(effects) + [NotePosted(old(noteText)), Alerted(if stored then "Note saved!" else "Failed to save note")]
        && (stored ==> noteText == "" && !showNoteInput)
        && (!stored ==> noteText == old(noteText) && showNoteInput == old(showNoteInput))
      ensures messages == old(messages) && input == old(input) && loading == old(loading)
      ensures isAgentMode == old(isAgentMode) && agentStatus == old(agentStatus)
    {
      if AllSpace(noteText) {
        return;
      }
      effects := effects + [NotePosted(noteText)];
      if stored {
        effects := effects + [Alerted("Note saved!")];
        noteText := "";
        showNoteInput := false;
      } else {
        effects := effects + [Alerted("Failed to save note")];
      }
    }
  }

  /** The answer bubble's text. */
  function AnswerText(reply: Result<string, string>): string {
    match reply
    case Ok(r) => r
    case Err(_) => ErrorReply
  }

  /** The effects after the await of a note request. */
  function NoteRequestEffects(text: string, reply: Result<string, string>, noteStored: bool): seq<Effect> {
    match reply
    case Err(_) => [Spoke("Sorry, I had an issue.")]
    case Ok(r) =>
      [Spoke(r)]
      + (if ReplySavesNote(r)
         then [NotePosted(ExtractNoteContent(Lower(text)))] + (if noteStored then [] else [Spoke("Sorry, I had an issue.")])
         else [])
  }

  /** A note is posted after a request exactly when the chat answered with
      a "saving note" reply, in any letter case, and at most once. */
  lemma NotePostedOnlyForSavingReply(text: string, reply: Result<string, string>, noteStored: bool)
    ensures var es := NoteRequestEffects(text, reply, noteStored);
      (exists k :: 0 <= k < |es| && es[k].NotePosted?) <==> reply.Ok? && ReplySavesNote(reply.value)
    ensures var es := NoteRequestEffects(text, reply, noteStored);
      forall i, j :: 0 <= i < j < |es| && es[i].NotePosted? ==> !es[j].NotePosted?
  {
    var es := NoteRequestEffects(text, reply, noteStored);
    if reply.Ok? && ReplySavesNote(reply.value) {
      assert es[1].NotePosted?;
    }
  }
}
