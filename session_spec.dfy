/** The session of `websocket_endpoint` as a state machine on values: the
    state it keeps between messages, the effect of one inbound message, and
    the effect of a whole stream. The `Endpoint.Session` class is proved to
    compute exactly these functions; the lemmas here state what the endpoint
    guarantees about them. */
module SessionSpec {
  import opened Optional
  import opened Text
  import opened Pipelines
  import opened Protocol

  datatype Phase = AwaitingConfig | Receiving | Terminated

  /** Everything the endpoint keeps: its phase, the current language roles,
      the current turn's audio, the messages sent so far, the number of
      completed turns, and the shared translator cache. */
  datatype State = State(
    phase: Phase,
    source: string,
    target: string,
    buffer: seq<bv8>,
    outbox: seq<Outbound>,
    turns: nat,
    pipelines: Cache)

  /** The models the endpoint consults, as oracles: Whisper transcription
      (audio, sampling rate, language hint), the translator loader (which may
      answer differently in different turns), and running a loaded translator. */
  datatype Env = Env(
    transcribe: (seq<bv8>, int, string) -> string,
    load: nat -> (string, string) -> LoadOutcome,
    translate: (Translator, string) -> string)

  /** A freshly accepted connection; the cache is whatever the process holds. */
  function Initial(pipelines: Cache): State {
    State(AwaitingConfig, "", "", [], [], 0, pipelines)
  }

  /** The configuration gate: the first message opens the session only if it
      is a JSON object with event "start" and both languages non-empty. A JSON
      object that fails this is answered with close code 1003. Anything else
      ends the session without a close frame: binary or non-JSON text makes
      `receive_json` raise, a JSON value that is not an object makes `.get`
      raise, and a disconnect raises `WebSocketDisconnect`. */
  function Configure(s: State, m: Inbound): (r: State)
    requires s.phase == AwaitingConfig
    ensures r.phase == Receiving <==> IsValidStart(m)
    ensures r.phase != Receiving ==> r.phase == Terminated
    ensures r.buffer == s.buffer && r.turns == s.turns && r.pipelines == s.pipelines
    ensures r.phase == Receiving ==>
              r.source == m.doc.sourceLang.value && r.target == m.doc.targetLang.value
              && r.outbox == s.outbox
    ensures r.phase == Terminated && m.Json? && m.doc.Object? ==>
              r.outbox == s.outbox + [Close(UnsupportedData,
                if m.doc.event == Some(StartEvent) then MissingLanguageReason else NotStartReason)]
    ensures !(m.Json? && m.doc.Object?) ==> r.outbox == s.outbox
  {
    match m
    case Json(Object(event, sourceLang, targetLang)) =>
      if event == Some(StartEvent) then
        if Truthy(sourceLang) && Truthy(targetLang) then
          s.(phase := Receiving, source := sourceLang.value, target := targetLang.value)
        else
          s.(phase := Terminated, outbox := s.outbox + [Close(UnsupportedData, MissingLanguageReason)])
      else
        s.(phase := Terminated, outbox := s.outbox + [Close(UnsupportedData, NotStartReason)])
    case _ => s.(phase := Terminated)
  }

  /** One message of the receive loop other than `end_of_speech`: audio is
      appended, non-JSON text and other JSON objects are ignored; a JSON value
      that is not an object, or a disconnect, ends the session. Nothing is
      sent and the roles stay. */
  function Absorb(s: State, m: Inbound): (r: State)
    requires s.phase == Receiving && !IsEndOfSpeech(m)
    ensures r.outbox == s.outbox && r.turns == s.turns && r.pipelines == s.pipelines
    ensures r.source == s.source && r.target == s.target
    ensures r.phase == Receiving <==> KeepsReceiving(m)
    ensures r.phase != Receiving ==> r.phase == Terminated && r.buffer == s.buffer
    ensures r.phase == Receiving ==> r.buffer == s.buffer + Chunks([m])
  {
    assert Chunks([m]) == Chunks([]) + (if m.Bytes? then m.chunk else []);
    match m
    case Bytes(chunk) => s.(buffer := s.buffer + chunk)
    case Json(doc) => if doc.NonObject? then s.(phase := Terminated) else s
    case NonJson => s
    case Disconnect => s.(phase := Terminated)
  }

  /** The stripped transcript of the turn's audio, in the current source language. */
  function Transcript(s: State, env: Env): string {
    Strip(env.transcribe(s.buffer, SampleRate, s.source))
  }

  /** The translator request a turn makes: for the current pair, with the
      loader as it answers in this turn. */
  function Request(s: State, env: Env): (Option<Translator>, Cache) {
    Acquire(s.pipelines, s.source, s.target, env.load(s.turns))
  }

  /** Processing a finished turn. An empty buffer, or a transcript that is
      blank after stripping, gives `no_speech_detected`; an unavailable
      translator gives an error; otherwise the stripped transcript and its
      translation are sent. A buffer of odd length is not a whole number of
      16-bit samples: converting it raises, and the session ends. */
  function ProcessTurn(s: State, env: Env): (r: State)
    requires s.phase == Receiving
    ensures r.source == s.source && r.target == s.target && r.turns == s.turns
    ensures r.buffer == s.buffer
    ensures r.phase == Terminated <==> |s.buffer| % 2 == 1
    ensures r.phase == Terminated ==> r.outbox == s.outbox && r.pipelines == s.pipelines
    ensures r.phase != Terminated ==>
              r.phase == Receiving && |r.outbox| == |s.outbox| + 1 && r.outbox[..|s.outbox|] == s.outbox
    ensures s.pipelines.Keys <= r.pipelines.Keys
    ensures r.phase != Terminated ==>
              r.pipelines == (if s.buffer != [] && Transcript(s, env) != "" then Request(s, env).1
                              else s.pipelines)
  {
    if s.buffer == [] then
      s.(outbox := s.outbox + [NoSpeechDetected])
    else if |s.buffer| % 2 == 1 then
      s.(phase := Terminated)
    else
      var originalText := Transcript(s, env);
      if originalText == "" then
        s.(outbox := s.outbox + [NoSpeechDetected])
      else
        var (translator, pipelines) := Request(s, env);
        match translator
        case Some(h) =>
          s.(outbox := s.outbox + [FinalTranslation(originalText, env.translate(h, originalText))],
             pipelines := pipelines)
        case None =>
          s.(outbox := s.outbox + [Error(TranslationUnavailable)], pipelines := pipelines)
  }

  /** The end of a turn, after processing: the roles are exchanged and the
      turn is counted, whatever the turn's outcome was. */
  function EndTurn(s: State): (r: State)
    ensures r.source == s.target && r.target == s.source && r.turns == s.turns + 1
    ensures r.phase == s.phase && r.buffer == s.buffer
    ensures r.outbox == s.outbox && r.pipelines == s.pipelines
  {
    s.(source := s.target, target := s.source, turns := s.turns + 1)
  }

  /** `end_of_speech` during reception: process, exchange roles, and start the
      next turn with an empty buffer, unless processing ended the session. */
  function CompleteTurn(s: State, env: Env): (r: State)
    requires s.phase == Receiving
    ensures r.phase == Receiving ==>
              r.source == s.target && r.target == s.source && r.turns == s.turns + 1
              && r.buffer == [] && |r.outbox| == |s.outbox| + 1
    ensures r.phase != Receiving ==> r.phase == Terminated && r.outbox == s.outbox
    ensures r.outbox == ProcessTurn(s, env).outbox && r.pipelines == ProcessTurn(s, env).pipelines
  {
    var p := ProcessTurn(s, env);
    if p.phase == Terminated then p else EndTurn(p).(buffer := [])
  }

  /** One inbound message. Once the session has ended, nothing more is read. */
  function Step(s: State, m: Inbound, env: Env): State {
    match s.phase
    case AwaitingConfig => Configure(s, m)
    case Receiving => if IsEndOfSpeech(m) then CompleteTurn(s, env) else Absorb(s, m)
    case Terminated => s
  }

  /** The state after the messages `events`, in order. */
  function Run(s: State, events: seq<Inbound>, env: Env): State
    decreases |events|
  {
    if events == [] then s
    else Step(Run(s, events[..|events| - 1], env), events[|events| - 1], env)
  }

  /** Reading one more message is one more step. */
  lemma RunExtend(s: State, events: seq<Inbound>, i: nat, env: Env)
    requires i < |events|
    ensures Run(s, events[..i + 1], env) == Step(Run(s, events[..i], env), events[i], env)
  {
    assert events[..i + 1][..i] == events[..i];
  }

  /** Running a stream in two pieces is running it whole. */
  lemma {:induction false} RunAppend(s: State, a: seq<Inbound>, b: seq<Inbound>, env: Env)
    ensures Run(s, a + b, env) == Run(Run(s, a, env), b, env)
    decreases |b|
  {
    if b == [] {
      assert a + b == a;
    } else {
      var n := |b| - 1;
      assert (a + b)[..|a + b| - 1] == a + b[..n];
      RunAppend(s, a, b[..n], env);
    }
  }

  /** An ended session ignores every later message. */
  lemma {:induction false} TerminatedIsFinal(s: State, events: seq<Inbound>, env: Env)
    requires s.phase == Terminated
    ensures Run(s, events, env) == s
    decreases |events|
  {
    if events != [] {
      TerminatedIsFinal(s, events[..|events| - 1], env);
    }
  }

  /** A rejected configuration decides the whole session: later messages are
      never read (so no audio is buffered and no turn output is produced), no
      model is consulted (the result is the same whatever the oracles do), and
      the only message ever sent is the close frame, if any. */
  lemma {:induction false} RejectedSessionIgnoresRest(pipelines: Cache, events: seq<Inbound>,
                                                      env1: Env, env2: Env)
    requires events != [] && !IsValidStart(events[0])
    ensures Run(Initial(pipelines), events, env1) == Configure(Initial(pipelines), events[0])
    ensures Run(Initial(pipelines), events, env1) == Run(Initial(pipelines), events, env2)
    ensures Run(Initial(pipelines), events, env1).phase == Terminated
    ensures Run(Initial(pipelines), events, env1).buffer == []
    ensures forall o :: o in Run(Initial(pipelines), events, env1).outbox ==> o == Close(UnsupportedData, o.reason)
    decreases |events|
  {
    var s0 := Initial(pipelines);
    assert events == [events[0]] + events[1..];
    RunAppend(s0, [events[0]], events[1..], env1);
    RunAppend(s0, [events[0]], events[1..], env2);
    assert [events[0]][..0] == [];
    TerminatedIsFinal(Configure(s0, events[0]), events[1..], env1);
    TerminatedIsFinal(Configure(s0, events[0]), events[1..], env2);
  }

  /** The role invariant of an open session configured with (a, b): one
      message sent per completed turn, and the pair exchanged once per turn. */
  predicate Alternating(r: State, a: string, b: string) {
    r.phase == Receiving ==>
      |r.outbox| == r.turns
      && (r.source, r.target) == (if r.turns % 2 == 0 then (a, b) else (b, a))
  }

  /** Every message preserves the role invariant. */
  lemma StepAlternates(s: State, m: Inbound, env: Env, a: string, b: string)
    requires s.phase != AwaitingConfig && Alternating(s, a, b)
    ensures Step(s, m, env).phase != AwaitingConfig && Alternating(Step(s, m, env), a, b)
  {
    if s.phase == Receiving && IsEndOfSpeech(m) {
      var r := CompleteTurn(s, env);
      assert r.phase == Receiving ==> r.turns % 2 != s.turns % 2;
    }
  }

  /** Roles alternate: in an open session every completed turn has sent
      exactly one message, and the current pair is the configured one after
      an even number of turns and the exchanged one after an odd number. */
  lemma {:induction false} RolesAlternate(pipelines: Cache, events: seq<Inbound>, env: Env)
    requires events != [] && IsValidStart(events[0])
    ensures Run(Initial(pipelines), events, env).phase != AwaitingConfig
    ensures Alternating(Run(Initial(pipelines), events, env),
                        events[0].doc.sourceLang.value, events[0].doc.targetLang.value)
    decreases |events|
  {
    var s0 := Initial(pipelines);
    var n := |events| - 1;
    RunExtend(s0, events, n, env);
    assert events[..n + 1] == events;
    if n == 0 {
      assert events[..n] == [];
    } else {
      assert events[..n][0] == events[0];
      RolesAlternate(pipelines, events[..n], env);
      StepAlternates(Run(s0, events[..n], env), events[n], env,
                     events[0].doc.sourceLang.value, events[0].doc.targetLang.value);
    }
  }

  /** The receive loop: while no message ends the turn or the session, the
      buffer is exactly the old buffer followed by the binary chunks, in
      arrival order, and nothing else changes. */
  lemma {:induction false} ReceiveLoopBuffers(s: State, events: seq<Inbound>, env: Env)
    requires s.phase == Receiving
    requires forall i :: 0 <= i < |events| ==> KeepsReceiving(events[i])
    ensures Run(s, events, env) == s.(buffer := s.buffer + Chunks(events))
    decreases |events|
  {
    if events == [] {
      assert s.buffer + Chunks(events) == s.buffer;
    } else {
      var n := |events| - 1;
      ReceiveLoopBuffers(s, events[..n], env);
      var last := events[n];
      assert KeepsReceiving(last);
      assert Chunks([last]) == Chunks([]) + (if last.Bytes? then last.chunk else []);
      assert s.buffer + Chunks(events[..n]) + Chunks([last]) == s.buffer + Chunks(events);
    }
  }

  /** A turn transcribes exactly its own audio: from a fresh buffer, the
      chunks received before `end_of_speech` are what is processed. */
  lemma TurnProcessesItsChunks(s: State, events: seq<Inbound>, end: Inbound, env: Env)
    requires s.phase == Receiving && s.buffer == []
    requires forall i :: 0 <= i < |events| ==> KeepsReceiving(events[i])
    requires IsEndOfSpeech(end)
    ensures Run(s, events + [end], env) == CompleteTurn(s.(buffer := Chunks(events)), env)
  {
    ReceiveLoopBuffers(s, events, env);
    assert s.buffer + Chunks(events) == Chunks(events);
    var all := events + [end];
    assert all[..|all| - 1] == events;
    assert Run(s, all, env) == Step(Run(s, events, env), end, env);
  }

  /** What a processed turn sends, case by case: `no_speech_detected` exactly
      when the buffer is empty or the transcript blank, an error exactly when
      the translator is unavailable, otherwise the stripped transcript and
      its translation by the translator now cached for the pair. */
  lemma TurnOutcomes(s: State, env: Env)
    requires s.phase == Receiving && |s.buffer| % 2 == 0
    ensures var r := ProcessTurn(s, env);
            var sent := r.outbox[|s.outbox|];
            && (sent == NoSpeechDetected <==> s.buffer == [] || Transcript(s, env) == "")
            && (sent.Error? <==> s.buffer != [] && Transcript(s, env) != "" && Request(s, env).0.None?)
            && (sent.Error? ==> sent.message == TranslationUnavailable)
            && (sent.FinalTranslation? <==>
                  s.buffer != [] && Transcript(s, env) != "" && Request(s, env).0.Some?)
            && (sent.FinalTranslation? ==>
                  var name := PipelineName(s.source, s.target);
                  && sent.originalText == Transcript(s, env)
                  && name in r.pipelines
                  && sent.translatedText == env.translate(r.pipelines[name], sent.originalText))
  {
  }

  /** An empty turn consults no model: the outcome is the same whatever the
      oracles, and is `no_speech_detected` with the cache untouched. */
  lemma EmptyTurnConsultsNoModel(s: State, env1: Env, env2: Env)
    requires s.phase == Receiving && s.buffer == []
    ensures ProcessTurn(s, env1) == ProcessTurn(s, env2)
    ensures ProcessTurn(s, env1) == s.(outbox := s.outbox + [NoSpeechDetected])
  {
  }

  /** A blank transcript requests no translator: neither the loader nor the
      translator is consulted and the cache is untouched. */
  lemma BlankTranscriptRequestsNoTranslator(s: State, env: Env,
                                            load: nat -> (string, string) -> LoadOutcome,
                                            translate: (Translator, string) -> string)
    requires s.phase == Receiving && s.buffer != [] && |s.buffer| % 2 == 0
    requires AllSpace(env.transcribe(s.buffer, SampleRate, s.source))
    ensures ProcessTurn(s, env) == ProcessTurn(s, env.(load := load, translate := translate))
    ensures ProcessTurn(s, env) == s.(outbox := s.outbox + [NoSpeechDetected])
  {
    StripEmptyIffBlank(env.transcribe(s.buffer, SampleRate, s.source));
  }

  /** The session's history only grows: sent messages are never retracted
      and cached translators are never dropped or replaced. */
  lemma {:induction false} HistoryOnlyGrows(s: State, events: seq<Inbound>, env: Env)
    ensures var r := Run(s, events, env);
            && |s.outbox| <= |r.outbox| && r.outbox[..|s.outbox|] == s.outbox
            && s.pipelines.Keys <= r.pipelines.Keys
            && forall k :: k in s.pipelines ==> r.pipelines[k] == s.pipelines[k]
    decreases |events|
  {
    if events != [] {
      var n := |events| - 1;
      HistoryOnlyGrows(s, events[..n], env);
      var prev := Run(s, events[..n], env);
      var r := Step(prev, events[n], env);
      assert r.outbox[..|prev.outbox|] == prev.outbox && r.pipelines.Keys >= prev.pipelines.Keys
             && forall k :: k in prev.pipelines ==> r.pipelines[k] == prev.pipelines[k];
      assert r.outbox[..|s.outbox|] == r.outbox[..|prev.outbox|][..|s.outbox|];
    }
  }
}
