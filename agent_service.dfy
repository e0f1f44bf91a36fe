/** The mobile voice agent's loop: a singleton service that cycles
    `LISTENING -> PROCESSING -> TALKING` over short recordings, keeps an
    active-mode flag between cycles, and reports every state it enters to
    one observer.

    Recording, the upload and speech are outside the model: a recording is
    given as what `createAsync` and `stopAndUnloadAsync` produce, the server
    answer as a decoded body or a failure, and whatever happens while the
    loop is suspended at an `await` (speech finishing, `stop()` being called)
    as an `Interrupt`. Each operation is a method of the class
    `AgentService`, proved equal to a transition function on the value
    `AgentModel`, and the properties are lemmas about those functions. */
module VoiceAgent {
  import opened Wrappers
  import opened Text
  import opened Json

  datatype AgentState = Idle | Listening | Processing | Talking

  /** The `onStateChange` callback. It is identified by `id`, and it throws
      when it is called with a state in `throwsOn` (after the state is
      stored, since `setState` stores first). */
  datatype Observer = Observer(id: nat, throwsOn: set<AgentState>)

  /** A prepared recording and the URI `getURI()` will report for it
      (`None` for `null`). */
  datatype Recording = Recording(uri: Option<string>)

  /** What the agent does outside itself, in order. */
  datatype Effect =
    | Notified(observer: nat, state: AgentState)                // onStateChange(state)
    | Requested(url: string, uri: string, requestState: string)  // POST of the audio and the state tag
    | Spoke(text: Value)                                         // Speech.speak(text)

  /** What happens while the loop is suspended at one `await`: nothing,
      the `onDone` callback of a pending utterance, or a call of `stop()`
      (with the outcome of its own `stopAndUnloadAsync`). */
  datatype Interrupt = Quiet | SpeechDone | StopCalled(unloadOk: bool)

  /** The server's answer to the upload: a decoded `response.data`, or a
      rejected request (network error, non-2xx status, the 5000 ms timeout). */
  datatype ServerOutcome = Replied(data: Value) | RequestFailed

  /** Everything the outside world decides during one pass of the loop. */
  datatype CycleInput = CycleInput(
    talkWait: Interrupt,          // during the 1000 ms wait while TALKING
    duringStart: Interrupt,       // during `createAsync`
    created: Option<Recording>,   // what `createAsync` yields (`None`: it threw)
    duringSample: Interrupt,      // during the 2500 ms sampling window
    unloadOk: bool,               // whether `stopAndUnloadAsync` succeeds
    outcome: ServerOutcome,       // the answer to the upload
    duringRequest: Interrupt,     // while the upload is in flight
    duringSpeech: Interrupt,      // during the 2000 / 3000 ms wait after speaking
    errorWait: Interrupt)         // during the 1000 ms wait in the loop's `catch`

  /** The service's fields, the global `agentActiveMode` flag, the number of
      utterances whose `onDone` is still to come, and the effects so far. */
  datatype AgentModel = AgentModel(
    running: bool,
    state: AgentState,
    recording: Option<Recording>,
    serverUrl: string,
    observer: Option<Observer>,
    activeMode: bool,
    pendingSpeech: nat,
    trace: seq<Effect>)

  /** The result of an operation that may throw: the state it leaves and
      whether an exception escaped. */
  datatype Outcome = Outcome(after: AgentModel, threw: bool)

  /** The result of `stopRecording`: the state it leaves and the URI. */
  datatype Stopped = Stopped(after: AgentModel, uri: Option<string>)

  /** The result of the listening half of a cycle. */
  datatype Listened = Listened(after: AgentModel, uri: Option<string>, threw: bool)

  const Initial := AgentModel(false, Idle, None, "", None, false, 0, [])

  const ApiSuffix := "/api"
  const AgentPath := "/chat/agent"
  const Greeting := "I'm listening."

  // The URL rule

  /** The server URL with `/api` appended unless it already ends so. */
  function NormalizeUrl(url: string): (r: string)
    ensures EndsWith(r, ApiSuffix)
    ensures EndsWith(url, ApiSuffix) ==> r == url
    ensures StartsWith(r, url) && |r| <= |url| + |ApiSuffix|
  {
    if EndsWith(url, ApiSuffix) then url
    else
      assert (url + ApiSuffix)[|url|..] == ApiSuffix;
      assert (url + ApiSuffix)[..|url|] == url;
      url + ApiSuffix
  }

  lemma NormalizeUrlIdempotent(url: string)
    ensures NormalizeUrl(NormalizeUrl(url)) == NormalizeUrl(url)
  {
  }

  /** The state tag sent with the audio. */
  function RequestState(activeMode: bool): (tag: string)
    ensures tag == "ACTIVE" <==> activeMode
    ensures tag == "IDLE" <==> !activeMode
  {
    if activeMode then "ACTIVE" else "IDLE"
  }

  /** The upload the agent sends for `uri` from state `a`. */
  function RequestFor(a: AgentModel, uri: string): Effect {
    Requested(NormalizeUrl(a.serverUrl) + AgentPath, uri, RequestState(a.activeMode))
  }

  // Transition functions, one per operation

  function InitStep(a: AgentModel, url: string, observer: Observer): AgentModel {
    a.(serverUrl := url, observer := Some(observer))
  }

  /** The observer's call for entering `s`, if one is registered. */
  function Notify(a: AgentModel, s: AgentState): seq<Effect> {
    if a.observer.Some? then [Notified(a.observer.value.id, s)] else []
  }

  function SetStateStep(a: AgentModel, s: AgentState): Outcome {
    Outcome(a.(state := s, trace := a.trace + Notify(a, s)),
            a.observer.Some? && s in a.observer.value.throwsOn)
  }

  function StopRecordingStep(a: AgentModel, unloadOk: bool): Stopped {
    if a.recording.None? then Stopped(a, None)
    else if unloadOk then Stopped(a.(recording := None), a.recording.value.uri)
    else Stopped(a, None)
  }

  function StopStep(a: AgentModel, unloadOk: bool): Outcome {
    SetStateStep(StopRecordingStep(a.(running := false), unloadOk).after, Idle)
  }

  /** An interrupt at an `await`. Whatever the callbacks throw does not
      reach the loop. */
  function Interrupted(a: AgentModel, ev: Interrupt): (r: AgentModel)
    ensures r.state == a.state || r.state == Idle
    ensures r.running ==> a.running
    ensures r.serverUrl == a.serverUrl && r.observer == a.observer && r.activeMode == a.activeMode
  {
    match ev
    case Quiet => a
    case SpeechDone =>
      if a.pendingSpeech == 0 then a
      else SetStateStep(a.(pendingSpeech := a.pendingSpeech - 1), Idle).after
    case StopCalled(ok) => StopStep(a, ok).after
  }

  function StartRecordingStep(a: AgentModel, during: Interrupt, created: Option<Recording>): (r: AgentModel)
    ensures r.running ==> a.running
  {
    var b := Interrupted(a, during);
    if created.Some? then b.(recording := created) else b
  }

  function SpeakStep(a: AgentModel, text: Value): AgentModel {
    a.(trace := a.trace + [Spoke(text)], pendingSpeech := a.pendingSpeech + 1)
  }

  /** `setState('TALKING')`, speaking `text`, and the wait after it. */
  function AnnounceStep(a: AgentModel, text: Value, during: Interrupt): (o: Outcome)
    ensures o.after.running ==> a.running
  {
    var t := SetStateStep(a, Talking);
    if t.threw then t else Outcome(Interrupted(SpeakStep(t.after, text), during), false)
  }

  /** How `processAudio` handles the answer to an upload tagged
      `requestState`, once it is back in state `a`. A `null` body throws on
      the first property read, and that is caught like a failed request. */
  function ReplyStep(a: AgentModel, requestState: string, outcome: ServerOutcome, during: Interrupt): (r: AgentModel)
    ensures r.running ==> a.running
  {
    match outcome
    case RequestFailed => a
    case Replied(data) =>
      if data == JNull then a
      else if requestState == "IDLE" then
        if Truthy(Field(data, "detected")) then AnnounceStep(a.(activeMode := true), JStr(Greeting), during).after
        else a
      else
        var replied := if Truthy(Field(data, "reply")) then AnnounceStep(a, Field(data, "reply").value, during)
                       else Outcome(a, false);
        if replied.threw then replied.after
        else if FieldIs(data, "action", "STOP") then replied.after.(activeMode := false)
        else replied.after
  }

  /** `processAudio(uri)`: the upload, what happens while it is in flight,
      and the handling of the answer; every exception inside it is caught
      there. */
  function ProcessAudioStep(a: AgentModel, uri: string, inp: CycleInput): (r: AgentModel)
    ensures r.running ==> a.running
  {
    var back := Interrupted(a.(trace := a.trace + [RequestFor(a, uri)]), inp.duringRequest);
    ReplyStep(back, RequestState(a.activeMode), inp.outcome, inp.duringSpeech)
  }

  /** The loop's `catch`: wait, then `setState('IDLE')`; if that throws too,
      the exception leaves the loop. */
  function RecoverStep(a: AgentModel, during: Interrupt): (o: Outcome)
    ensures o.after.state == Idle
    ensures o.after.running ==> a.running
  {
    SetStateStep(Interrupted(a, during), Idle)
  }

  /** A URI that `if (uri)` accepts. */
  predicate HasUri(uri: Option<string>) {
    uri.Some? && uri.value != ""
  }

  /** From `setState('LISTENING')` through `stopRecording()`. */
  function ListenStep(a: AgentModel, inp: CycleInput): (l: Listened)
    ensures l.after.running ==> a.running
  {
    var l := SetStateStep(a, Listening);
    if l.threw then Listened(l.after, None, true)
    else
      var c := StartRecordingStep(l.after, inp.duringStart, inp.created);
      var s := StopRecordingStep(Interrupted(c, inp.duringSample), inp.unloadOk);
      Listened(s.after, s.uri, false)
  }

  /** `if (uri) { setState('PROCESSING'); await processAudio(uri) }`. */
  function UploadStep(l: Listened, inp: CycleInput): (o: Outcome)
    ensures o.after.running ==> l.after.running
  {
    if HasUri(l.uri) then
      var pr := SetStateStep(l.after, Processing);
      if pr.threw then pr else Outcome(ProcessAudioStep(pr.after, l.uri.value, inp), false)
    else Outcome(l.after, false)
  }

  /** The reset of a leftover PROCESSING, and the loop's `catch` for
      whatever threw before or during it. */
  function SettleStep(p: Outcome, inp: CycleInput): (o: Outcome)
    ensures o.after.state != Processing
    ensures p.threw || p.after.state == Processing ==> o.after.state == Idle
    ensures o.threw ==> o.after.state == Idle
    ensures o.after.running ==> p.after.running
  {
    if p.threw then RecoverStep(p.after, inp.errorWait)
    else if p.after.state == Processing then
      var r := SetStateStep(p.after, Idle);
      if r.threw then RecoverStep(r.after, inp.errorWait) else r
    else p
  }

  /** One pass of the loop body; `threw` means an exception left the loop. */
  function CycleStep(a: AgentModel, inp: CycleInput): (o: Outcome)
    ensures o.after.running ==> a.running
  {
    if a.state == Talking then Outcome(Interrupted(a, inp.talkWait), false)
    else
      var l := ListenStep(a, inp);
      if l.threw then RecoverStep(l.after, inp.errorWait)
      else SettleStep(UploadStep(l, inp), inp)
  }

  /** `while (this.isRunning)`, one input per pass, until the agent is
      stopped, an exception leaves the loop, or the inputs run out. */
  function Run(a: AgentModel, inputs: seq<CycleInput>): AgentModel
    decreases |inputs|
  {
    if !a.running || inputs == [] then a
    else
      var c := CycleStep(a, inputs[0]);
      if c.threw then c.after else Run(c.after, inputs[1..])
  }

  function StartStep(a: AgentModel, inputs: seq<CycleInput>): AgentModel {
    if a.running then a else Run(a.(running := true), inputs)
  }

  // The service itself

  class AgentService {
    var recording: Option<Recording>
    var isRunning: bool
    var currentState: AgentState
    var serverUrl: string
    var onStateChange: Option<Observer>
    var activeMode: bool         // window.agentActiveMode
    var pendingSpeech: nat       // utterances whose onDone is still to come
    var trace: seq<Effect>       // what the agent has done outside itself

    function Model(): AgentModel
      reads this
    {
      AgentModel(isRunning, currentState, recording, serverUrl, onStateChange, activeMode, pendingSpeech, trace)
    }

    constructor ()
      ensures Model() == Initial
    {
      recording, isRunning, currentState, serverUrl := None, false, Idle, "";
      onStateChange, activeMode, pendingSpeech, trace := None, false, 0, [];
    }

    method Init(url: string, observer: Observer)
      modifies this
      ensures Model() == InitStep(old(Model()), url, observer)
    {
      serverUrl := url;
      onStateChange := Some(observer);
    }

    method SetState(s: AgentState) returns (threw: bool)
      modifies this
      ensures Outcome(Model(), threw) == SetStateStep(old(Model()), s)
    {
      currentState := s;
      threw := false;
      if onStateChange.Some? {
        trace := trace + [Notified(onStateChange.value.id, s)];
        threw := s in onStateChange.value.throwsOn;
      }
    }

    method StopRecording(unloadOk: bool) returns (uri: Option<string>)
      modifies this
      ensures Stopped(Model(), uri) == StopRecordingStep(old(Model()), unloadOk)
    {
      if recording.None? {
        return None;
      }
      if !unloadOk {
        return None;
      }
      uri := recording.value.uri;
      recording := None;
    }

    /** `stop()`; `threw` is what the observer throws back at its caller. */
    method Stop(unloadOk: bool) returns (threw: bool)
      modifies this
      ensures Outcome(Model(), threw) == StopStep(old(Model()), unloadOk)
    {
      isRunning := false;
      var discarded := StopRecording(unloadOk);
      threw := SetState(Idle);
    }

    /** Whatever happens while suspended at an `await`. */
    method Await(ev: Interrupt)
      modifies this
      ensures Model() == Interrupted(old(Model()), ev)
    {
      match ev {
        case Quiet =>
        case SpeechDone =>
          if pendingSpeech > 0 {
            pendingSpeech := pendingSpeech - 1;
            var ignored := SetState(Idle);
          }
        case StopCalled(ok) =>
          var ignored := Stop(ok);
      }
    }

    method StartRecording(during: Interrupt, created: Option<Recording>)
      modifies this
      ensures Model() == StartRecordingStep(old(Model()), during, created)
    {
      Await(during);
      if created.Some? {
        recording := created;
      }
    }

    method Speak(text: Value)
      modifies this
      ensures Model() == SpeakStep(old(Model()), text)
    {
      trace := trace + [Spoke(text)];
      pendingSpeech := pendingSpeech + 1;
    }

    method ProcessAudio(uri: string, inp: CycleInput)
      modifies this
      ensures Model() == ProcessAudioStep(old(Model()), uri, inp)
    {
      var requestState := if activeMode then "ACTIVE" else "IDLE";
      var validUrl := NormalizeUrl(serverUrl);
      trace := trace + [Requested(validUrl + AgentPath, uri, requestState)];
      Await(inp.duringRequest);
      match inp.outcome {
        case RequestFailed =>
        case Replied(data) =>
          if data == JNull {
            return;
          }
          if requestState == "IDLE" {
            if Truthy(Field(data, "detected")) {
              activeMode := true;
              var threw := SetState(Talking);
              if !threw {
                Speak(JStr(Greeting));
                Await(inp.duringSpeech);
              }
            }
          } else {
            if Truthy(Field(data, "reply")) {
              var threw := SetState(Talking);
              if threw {
                return;
              }
              Speak(Field(data, "reply").value);
              Await(inp.duringSpeech);
            }
            if FieldIs(data, "action", "STOP") {
              activeMode := false;
            }
          }
      }
    }

    /** The loop's `catch` block. */
    method Recover(during: Interrupt) returns (threw: bool)
      modifies this
      ensures Outcome(Model(), threw) == RecoverStep(old(Model()), during)
    {
      Await(during);
      threw := SetState(Idle);
    }

    /** One pass of the loop body, `try` and `catch` included. */
    method RunCycle(inp: CycleInput) returns (threw: bool)
      modifies this
      ensures Outcome(Model(), threw) == CycleStep(old(Model()), inp)
    {
      if currentState == Talking {
        Await(inp.talkWait);
        return false;
      }
      var failed := SetState(Listening);
      if failed {
        threw := Recover(inp.errorWait);
        return;
      }
      StartRecording(inp.duringStart, inp.created);
      Await(inp.duringSample);
      var uri := StopRecording(inp.unloadOk);
      if uri.Some? && uri.value != "" {
        failed := SetState(Processing);
        if failed {
          threw := Recover(inp.errorWait);
          return;
        }
        ProcessAudio(uri.value, inp);
      }
      if currentState == Processing {
        failed := SetState(Idle);
        if failed {
          threw := Recover(inp.errorWait);
          return;
        }
      }
      threw := false;
    }

    method Loop(inputs: seq<CycleInput>)
      modifies this
      ensures Model() == Run(old(Model()), inputs)
    {
      var i := 0;
      while isRunning && i < |inputs|
        invariant 0 <= i <= |inputs|
        invariant Run(old(Model()), inputs) == Run(Model(), inputs[i..])
      {
        assert inputs[i..][1..] == inputs[i + 1..];
        var threw := RunCycle(inputs[i]);
        if threw {
          return;
        }
        i := i + 1;
      }
    }

    /** `start()`: the loop it launches runs against `inputs`. */
    method Start(inputs: seq<CycleInput>)
      modifies this
      ensures Model() == StartStep(old(Model()), inputs)
    {
      if isRunning {
        return;
      }
      isRunning := true;
      Loop(inputs);
    }
  }

  // The uploads in a trace

  function Requests(t: seq<Effect>): seq<Effect>
    decreases |t|
  {
    if t == [] then []
    else Requests(t[..|t| - 1]) + (if t[|t| - 1].Requested? then [t[|t| - 1]] else [])
  }

  /** One more effect adds itself to the uploads exactly when it is one. */
  lemma RequestsSnoc(t: seq<Effect>, e: Effect)
    ensures Requests(t + [e]) == Requests(t) + (if e.Requested? then [e] else [])
  {
    assert (t + [e])[..|t|] == t;
  }

  lemma SetStateKeepsRequests(a: AgentModel, s: AgentState)
    ensures Requests(SetStateStep(a, s).after.trace) == Requests(a.trace)
  {
    if a.observer.Some? {
      assert Notify(a, s) == [Notified(a.observer.value.id, s)];
      RequestsSnoc(a.trace, Notified(a.observer.value.id, s));
    } else {
      assert a.trace + Notify(a, s) == a.trace;
    }
  }

  lemma StopKeepsRequests(a: AgentModel, unloadOk: bool)
    ensures Requests(StopStep(a, unloadOk).after.trace) == Requests(a.trace)
  {
    SetStateKeepsRequests(StopRecordingStep(a.(running := false), unloadOk).after, Idle);
  }

  lemma InterruptKeepsRequests(a: AgentModel, ev: Interrupt)
    ensures Requests(Interrupted(a, ev).trace) == Requests(a.trace)
  {
    match ev
    case Quiet =>
    case SpeechDone =>
      if a.pendingSpeech > 0 {
        SetStateKeepsRequests(a.(pendingSpeech := a.pendingSpeech - 1), Idle);
      }
    case StopCalled(ok) =>
      StopKeepsRequests(a, ok);
  }

  lemma AnnounceKeepsRequests(a: AgentModel, text: Value, during: Interrupt)
    ensures Requests(AnnounceStep(a, text, during).after.trace) == Requests(a.trace)
  {
    var t := SetStateStep(a, Talking);
    SetStateKeepsRequests(a, Talking);
    if !t.threw {
      RequestsSnoc(t.after.trace, Spoke(text));
      InterruptKeepsRequests(SpeakStep(t.after, text), during);
    }
  }

  lemma ReplyKeepsRequests(a: AgentModel, requestState: string, outcome: ServerOutcome, during: Interrupt)
    ensures Requests(ReplyStep(a, requestState, outcome, during).trace) == Requests(a.trace)
  {
    if outcome.Replied? && outcome.data != JNull {
      var data := outcome.data;
      if requestState == "IDLE" {
        if Truthy(Field(data, "detected")) {
          AnnounceKeepsRequests(a.(activeMode := true), JStr(Greeting), during);
        }
      } else if Truthy(Field(data, "reply")) {
        AnnounceKeepsRequests(a, Field(data, "reply").value, during);
      }
    }
  }

  /** `processAudio` sends exactly one upload, for `uri`, tagged with the
      active flag as it was when the call began; nothing after it sends
      another. */
  lemma ProcessAudioSendsOne(a: AgentModel, uri: string, inp: CycleInput)
    ensures Requests(ProcessAudioStep(a, uri, inp).trace) == Requests(a.trace) + [RequestFor(a, uri)]
  {
    var sent := a.(trace := a.trace + [RequestFor(a, uri)]);
    RequestsSnoc(a.trace, RequestFor(a, uri));
    var back := Interrupted(sent, inp.duringRequest);
    InterruptKeepsRequests(sent, inp.duringRequest);
    ReplyKeepsRequests(back, RequestState(a.activeMode), inp.outcome, inp.duringSpeech);
  }

  /** The upload's state tag is `ACTIVE` exactly when the flag is set. */
  lemma RequestTagFollowsFlag(a: AgentModel, uri: string, inp: CycleInput)
    ensures var rs := Requests(ProcessAudioStep(a, uri, inp).trace);
      rs != [] && rs[|rs| - 1].Requested? && rs[|rs| - 1].uri == uri
      && (rs[|rs| - 1].requestState == "ACTIVE" <==> a.activeMode)
      && EndsWith(rs[|rs| - 1].url, "/api/chat/agent")
  {
    ProcessAudioSendsOne(a, uri, inp);
    var rs := Requests(ProcessAudioStep(a, uri, inp).trace);
    assert rs[|rs| - 1] == RequestFor(a, uri);
    UploadUrl(a.serverUrl);
  }

  /** Every upload goes to `<server>/api/chat/agent`. */
  lemma UploadUrl(serverUrl: string)
    ensures EndsWith(NormalizeUrl(serverUrl) + AgentPath, "/api/chat/agent")
  {
    EndsWithAppend(NormalizeUrl(serverUrl), ApiSuffix, AgentPath);
    assert ApiSuffix + AgentPath == "/api/chat/agent";
  }

  // Properties of the operations

  /** `start()` on a running agent changes nothing; otherwise it marks the
      agent running and runs the loop. */
  lemma StartIsIdempotent(a: AgentModel, inputs: seq<CycleInput>, later: seq<CycleInput>)
    ensures a.running ==> StartStep(a, inputs) == a
    ensures !a.running ==> StartStep(a, inputs) == Run(a.(running := true), inputs)
    ensures StartStep(a, inputs).running ==> StartStep(StartStep(a, inputs), later) == StartStep(a, inputs)
  {
  }

  /** `stop()` leaves the agent stopped and IDLE, tells the observer so,
      and drops a recording it could unload; it leaves the active flag
      alone. */
  lemma StopEndsIdle(a: AgentModel, unloadOk: bool)
    ensures var s := StopStep(a, unloadOk).after;
      !s.running && s.state == Idle && s.trace == a.trace + Notify(a, Idle)
      && s.activeMode == a.activeMode && s.serverUrl == a.serverUrl && s.observer == a.observer
      && (unloadOk ==> s.recording.None?) && (!unloadOk ==> s.recording == a.recording)
  {
  }

  /** Every `setState(s)` stores `s` and calls the registered observer with
      exactly `s`; after `init` the only observer called is the new one. */
  lemma SetStateNotifiesObserver(a: AgentModel, url: string, observer: Observer, s: AgentState)
    ensures var o := SetStateStep(a, s);
      o.after.state == s
      && (a.observer.Some? ==> o.after.trace == a.trace + [Notified(a.observer.value.id, s)])
      && (a.observer.None? ==> o.after.trace == a.trace && !o.threw)
    ensures var o := SetStateStep(InitStep(a, url, observer), s);
      o.after.trace == a.trace + [Notified(observer.id, s)] && (o.threw <==> s in observer.throwsOn)
  {
  }

  /** `stopRecording` yields nothing when no recording is held, and on a
      successful unload clears the held recording and yields its URI. */
  lemma StopRecordingYieldsHeldUri(a: AgentModel, unloadOk: bool)
    ensures var s := StopRecordingStep(a, unloadOk);
      (a.recording.None? ==> s.uri.None? && s.after == a)
      && (a.recording.Some? && unloadOk ==> s.uri == a.recording.value.uri && s.after.recording.None?)
      && (s.uri.Some? ==> s.after.recording.None?)
      && s.after.trace == a.trace && s.after.state == a.state
  {
  }

  /** While TALKING a pass only waits: no recording is started and nothing
      is uploaded. */
  lemma TalkingOnlyWaits(a: AgentModel, inp: CycleInput)
    requires a.state == Talking
    ensures CycleStep(a, inp) == Outcome(Interrupted(a, inp.talkWait), false)
    ensures var b := CycleStep(a, inp).after;
      (b.recording == a.recording || b.recording.None?) && Requests(b.trace) == Requests(a.trace)
  {
    InterruptKeepsRequests(a, inp.talkWait);
  }

  lemma RecoverKeepsRequests(a: AgentModel, during: Interrupt)
    ensures Requests(RecoverStep(a, during).after.trace) == Requests(a.trace)
  {
    InterruptKeepsRequests(a, during);
    SetStateKeepsRequests(Interrupted(a, during), Idle);
  }

  lemma ListenKeepsRequests(a: AgentModel, inp: CycleInput)
    ensures Requests(ListenStep(a, inp).after.trace) == Requests(a.trace)
  {
    var ls := SetStateStep(a, Listening);
    SetStateKeepsRequests(a, Listening);
    if !ls.threw {
      InterruptKeepsRequests(ls.after, inp.duringStart);
      var c := StartRecordingStep(ls.after, inp.duringStart, inp.created);
      InterruptKeepsRequests(c, inp.duringSample);
    }
  }

  lemma UploadSendsOnlyWithUri(l: Listened, inp: CycleInput)
    ensures var sends := HasUri(l.uri) && !SetStateStep(l.after, Processing).threw;
      Requests(UploadStep(l, inp).after.trace)
      == Requests(l.after.trace) + (if sends then [RequestFor(l.after, l.uri.value)] else [])
  {
    if HasUri(l.uri) {
      var pr := SetStateStep(l.after, Processing);
      SetStateKeepsRequests(l.after, Processing);
      if !pr.threw {
        ProcessAudioSendsOne(pr.after, l.uri.value, inp);
        assert RequestFor(pr.after, l.uri.value) == RequestFor(l.after, l.uri.value);
      }
    }
  }

  lemma SettleKeepsRequests(p: Outcome, inp: CycleInput)
    ensures Requests(SettleStep(p, inp).after.trace) == Requests(p.after.trace)
  {
    if p.threw {
      RecoverKeepsRequests(p.after, inp.errorWait);
    } else if p.after.state == Processing {
      var r := SetStateStep(p.after, Idle);
      SetStateKeepsRequests(p.after, Idle);
      if r.threw {
        RecoverKeepsRequests(r.after, inp.errorWait);
      }
    }
  }

  /** A pass uploads at most once, and only after `stopRecording` yielded a
      URI and PROCESSING was entered; the upload carries that URI. */
  lemma CycleUploadsOnlyWithUri(a: AgentModel, inp: CycleInput)
    ensures var l := ListenStep(a, inp);
      var sends := a.state != Talking && !l.threw && HasUri(l.uri) && !SetStateStep(l.after, Processing).threw;
      Requests(CycleStep(a, inp).after.trace)
      == Requests(a.trace) + (if sends then [RequestFor(l.after, l.uri.value)] else [])
  {
    if a.state == Talking {
      InterruptKeepsRequests(a, inp.talkWait);
    } else {
      var l := ListenStep(a, inp);
      ListenKeepsRequests(a, inp);
      if l.threw {
        RecoverKeepsRequests(l.after, inp.errorWait);
      } else {
        UploadSendsOnlyWithUri(l, inp);
        SettleKeepsRequests(UploadStep(l, inp), inp);
      }
    }
  }

  // The observer's PROCESSING notices in a trace

  /** How many times the observer was told PROCESSING. */
  function ProcessingNotices(t: seq<Effect>): nat
    decreases |t|
  {
    if t == [] then 0
    else ProcessingNotices(t[..|t| - 1]) + (if t[|t| - 1].Notified? && t[|t| - 1].state == Processing then 1 else 0)
  }

  lemma NoticesSnoc(t: seq<Effect>, e: Effect)
    ensures ProcessingNotices(t + [e]) == ProcessingNotices(t) + (if e.Notified? && e.state == Processing then 1 else 0)
  {
    assert (t + [e])[..|t|] == t;
  }

  /** `setState(s)` tells a registered observer `s`, and nothing else. */
  lemma SetStateNotices(a: AgentModel, s: AgentState)
    ensures ProcessingNotices(SetStateStep(a, s).after.trace)
      == ProcessingNotices(a.trace) + (if s == Processing && a.observer.Some? then 1 else 0)
  {
    if a.observer.Some? {
      assert Notify(a, s) == [Notified(a.observer.value.id, s)];
      NoticesSnoc(a.trace, Notified(a.observer.value.id, s));
    } else {
      assert a.trace + Notify(a, s) == a.trace;
    }
  }

  lemma InterruptKeepsNotices(a: AgentModel, ev: Interrupt)
    ensures ProcessingNotices(Interrupted(a, ev).trace) == ProcessingNotices(a.trace)
  {
    match ev
    case Quiet =>
    case SpeechDone =>
      if a.pendingSpeech > 0 {
        SetStateNotices(a.(pendingSpeech := a.pendingSpeech - 1), Idle);
      }
    case StopCalled(ok) =>
      SetStateNotices(StopRecordingStep(a.(running := false), ok).after, Idle);
  }

  lemma AnnounceKeepsNotices(a: AgentModel, text: Value, during: Interrupt)
    ensures ProcessingNotices(AnnounceStep(a, text, during).after.trace) == ProcessingNotices(a.trace)
  {
    var t := SetStateStep(a, Talking);
    SetStateNotices(a, Talking);
    if !t.threw {
      NoticesSnoc(t.after.trace, Spoke(text));
      InterruptKeepsNotices(SpeakStep(t.after, text), during);
    }
  }

  /** `processAudio` never tells the observer PROCESSING itself. */
  lemma ProcessAudioKeepsNotices(a: AgentModel, uri: string, inp: CycleInput)
    ensures ProcessingNotices(ProcessAudioStep(a, uri, inp).trace) == ProcessingNotices(a.trace)
  {
    var sent := a.(trace := a.trace + [RequestFor(a, uri)]);
    NoticesSnoc(a.trace, RequestFor(a, uri));
    var back := Interrupted(sent, inp.duringRequest);
    InterruptKeepsNotices(sent, inp.duringRequest);
    if inp.outcome.Replied? && inp.outcome.data != JNull {
      var data := inp.outcome.data;
      if RequestState(a.activeMode) == "IDLE" {
        if Truthy(Field(data, "detected")) {
          AnnounceKeepsNotices(back.(activeMode := true), JStr(Greeting), inp.duringSpeech);
        }
      } else if Truthy(Field(data, "reply")) {
        AnnounceKeepsNotices(back, Field(data, "reply").value, inp.duringSpeech);
      }
    }
  }

  lemma ListenKeepsNotices(a: AgentModel, inp: CycleInput)
    ensures ProcessingNotices(ListenStep(a, inp).after.trace) == ProcessingNotices(a.trace)
    ensures ListenStep(a, inp).after.observer == a.observer
  {
    var ls := SetStateStep(a, Listening);
    SetStateNotices(a, Listening);
    if !ls.threw {
      InterruptKeepsNotices(ls.after, inp.duringStart);
      var c := StartRecordingStep(ls.after, inp.duringStart, inp.created);
      InterruptKeepsNotices(c, inp.duringSample);
    }
  }

  lemma RecoverKeepsNotices(a: AgentModel, during: Interrupt)
    ensures ProcessingNotices(RecoverStep(a, during).after.trace) == ProcessingNotices(a.trace)
  {
    InterruptKeepsNotices(a, during);
    SetStateNotices(Interrupted(a, during), Idle);
  }

  lemma SettleKeepsNotices(p: Outcome, inp: CycleInput)
    ensures ProcessingNotices(SettleStep(p, inp).after.trace) == ProcessingNotices(p.after.trace)
  {
    if p.threw {
      RecoverKeepsNotices(p.after, inp.errorWait);
    } else if p.after.state == Processing {
      var r := SetStateStep(p.after, Idle);
      SetStateNotices(p.after, Idle);
      if r.threw {
        RecoverKeepsNotices(r.after, inp.errorWait);
      }
    }
  }

  /** PROCESSING is entered only for a URI: a pass tells the observer
      PROCESSING once exactly when it was not TALKING, recording did not
      throw, `stopRecording` yielded a URI and an observer is registered,
      and otherwise never. */
  lemma ProcessingOnlyWithUri(a: AgentModel, inp: CycleInput)
    ensures var l := ListenStep(a, inp);
      var enters := a.state != Talking && !l.threw && HasUri(l.uri);
      ProcessingNotices(CycleStep(a, inp).after.trace)
      == ProcessingNotices(a.trace) + (if enters && a.observer.Some? then 1 else 0)
  {
    if a.state == Talking {
      InterruptKeepsNotices(a, inp.talkWait);
    } else {
      var l := ListenStep(a, inp);
      ListenKeepsNotices(a, inp);
      if l.threw {
        RecoverKeepsNotices(l.after, inp.errorWait);
      } else {
        if HasUri(l.uri) {
          var pr := SetStateStep(l.after, Processing);
          SetStateNotices(l.after, Processing);
          if !pr.threw {
            ProcessAudioKeepsNotices(pr.after, l.uri.value, inp);
          }
        }
        SettleKeepsNotices(UploadStep(l, inp), inp);
      }
    }
  }

  /** No pass ends in PROCESSING. A pass ends IDLE when its listening half
      throws, when `setState('PROCESSING')` or the upload throws, when the
      upload leaves PROCESSING behind, and when an exception leaves the loop. */
  lemma NoCycleEndsProcessing(a: AgentModel, inp: CycleInput)
    ensures CycleStep(a, inp).after.state != Processing
    ensures a.state != Talking && ListenStep(a, inp).threw ==> CycleStep(a, inp).after.state == Idle
    ensures a.state != Talking && !ListenStep(a, inp).threw
            && (UploadStep(ListenStep(a, inp), inp).threw || UploadStep(ListenStep(a, inp), inp).after.state == Processing)
            ==> CycleStep(a, inp).after.state == Idle
    ensures CycleStep(a, inp).threw ==> CycleStep(a, inp).after.state == Idle
  {
  }

  /** A pass whose capture yields no URI sends nothing and stays LISTENING:
      the upload is skipped and only a leftover PROCESSING is reset, so a
      failed capture does not return the agent to IDLE. */
  lemma CaptureFailureStaysListening(a: AgentModel, inp: CycleInput)
    requires a.state != Talking && !ListenStep(a, inp).threw && !HasUri(ListenStep(a, inp).uri)
    requires inp.duringStart == Quiet && inp.duringSample == Quiet
    ensures CycleStep(a, inp).after.state == Listening && !CycleStep(a, inp).threw
    ensures Requests(CycleStep(a, inp).after.trace) == Requests(a.trace)
  {
    var l := ListenStep(a, inp);
    var c := StartRecordingStep(SetStateStep(a, Listening).after, inp.duringStart, inp.created);
    assert c.state == Listening;
    assert l.after == StopRecordingStep(c, inp.unloadOk).after;
    assert UploadStep(l, inp) == Outcome(l.after, false);
    CycleUploadsOnlyWithUri(a, inp);
  }

  /** However many passes run, the loop never leaves the agent PROCESSING. */
  lemma {:induction false} RunNeverEndsProcessing(a: AgentModel, inputs: seq<CycleInput>)
    requires a.state != Processing
    ensures Run(a, inputs).state != Processing
    decreases |inputs|
  {
    if a.running && inputs != [] {
      var c := CycleStep(a, inputs[0]);
      NoCycleEndsProcessing(a, inputs[0]);
      if !c.threw {
        RunNeverEndsProcessing(c.after, inputs[1..]);
      }
    }
  }

  /** In IDLE mode a detected wake word sets the active flag, whatever else
      happens, and with nothing interrupting leaves the agent TALKING after
      it spoke the greeting. */
  lemma WakeWordActivates(a: AgentModel, uri: string, inp: CycleInput)
    requires !a.activeMode && inp.outcome.Replied? && inp.outcome.data != JNull
    requires Truthy(Field(inp.outcome.data, "detected"))
    ensures ProcessAudioStep(a, uri, inp).activeMode
    ensures inp.duringRequest == Quiet && inp.duringSpeech == Quiet ==>
      ProcessAudioStep(a, uri, inp).state == Talking
    ensures (inp.duringRequest == Quiet && inp.duringSpeech == Quiet
             && (a.observer.None? || Talking !in a.observer.value.throwsOn)) ==>
      ProcessAudioStep(a, uri, inp).trace == a.trace + [RequestFor(a, uri)] + Notify(a, Talking) + [Spoke(JStr(Greeting))]
  {
  }

  /** In IDLE mode an answer without `detected` changes nothing but the
      upload and what happened meanwhile. */
  lemma NoWakeWordNoChange(a: AgentModel, uri: string, inp: CycleInput)
    requires !a.activeMode && inp.outcome.Replied?
    requires !Truthy(Field(inp.outcome.data, "detected"))
    ensures ProcessAudioStep(a, uri, inp) == Interrupted(a.(trace := a.trace + [RequestFor(a, uri)]), inp.duringRequest)
  {
  }

  /** In active mode `action == 'STOP'` clears the flag whether or not a
      reply is spoken; it survives only when the reply's `setState` throws. */
  lemma StopActionClearsFlag(a: AgentModel, uri: string, inp: CycleInput)
    requires a.activeMode && inp.outcome.Replied? && inp.outcome.data != JNull
    requires FieldIs(inp.outcome.data, "action", "STOP")
    ensures ProcessAudioStep(a, uri, inp).activeMode <==>
      Truthy(Field(inp.outcome.data, "reply")) && a.observer.Some? && Talking in a.observer.value.throwsOn
  {
  }

  /** In active mode a reply is spoken and leaves the agent TALKING; the
      flag stays set unless the action is STOP. */
  lemma ActiveReplySpoken(a: AgentModel, uri: string, inp: CycleInput)
    requires a.activeMode && inp.outcome.Replied? && inp.outcome.data != JNull
    requires Truthy(Field(inp.outcome.data, "reply"))
    requires a.observer.None? || Talking !in a.observer.value.throwsOn
    requires inp.duringRequest == Quiet && inp.duringSpeech == Quiet
    ensures var b := ProcessAudioStep(a, uri, inp);
      b.state == Talking
      && b.trace == a.trace + [RequestFor(a, uri)] + Notify(a, Talking) + [Spoke(Field(inp.outcome.data, "reply").value)]
      && (b.activeMode <==> !FieldIs(inp.outcome.data, "action", "STOP"))
  {
  }

  /** A failed request, or a `null` body, is swallowed: nothing changes
      beyond the upload and what happened meanwhile. */
  lemma RequestErrorsSwallowed(a: AgentModel, uri: string, inp: CycleInput)
    requires inp.outcome == RequestFailed || inp.outcome == Replied(JNull)
    ensures ProcessAudioStep(a, uri, inp) == Interrupted(a.(trace := a.trace + [RequestFor(a, uri)]), inp.duringRequest)
  {
  }

  /** `stop()` during the sampling window, when it can unload the
      recording, ends the pass stopped and IDLE without an upload. */
  lemma StopWhileSamplingSendsNothing(a: AgentModel, inp: CycleInput)
    requires a.state != Talking && inp.duringSample == StopCalled(true)
    requires !SetStateStep(a, Listening).threw
    ensures var b := CycleStep(a, inp).after;
      !b.running && b.state == Idle && Requests(b.trace) == Requests(a.trace)
  {
    CycleUploadsOnlyWithUri(a, inp);
  }

  /** `stop()` while `createAsync` is pending does not prevent the upload:
      the recording arrives after `stop()` looked for one, and the pass
      goes on to stop it and send it. */
  lemma StopWhileStartingStillSends(a: AgentModel, inp: CycleInput, u: string)
    requires a.state != Talking && a.observer.None?
    requires inp.duringStart == StopCalled(true) && inp.created == Some(Recording(Some(u))) && u != ""
    requires inp.duringSample == Quiet && inp.unloadOk
    ensures var b := CycleStep(a, inp).after;
      !b.running && |Requests(b.trace)| == |Requests(a.trace)| + 1
  {
    CycleUploadsOnlyWithUri(a, inp);
  }

  /** `stop()` while the upload is in flight does not prevent a detected
      wake word from setting the flag and TALKING afterwards. */
  lemma LateWakeAfterStop(a: AgentModel, uri: string, inp: CycleInput, ok: bool)
    requires !a.activeMode && a.observer.None?
    requires inp.duringRequest == StopCalled(ok) && inp.duringSpeech == Quiet
    requires inp.outcome.Replied? && Truthy(Field(inp.outcome.data, "detected"))
    ensures var b := ProcessAudioStep(a, uri, inp);
      !b.running && b.state == Talking && b.activeMode
  {
  }
}
