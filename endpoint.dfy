/** `websocket_endpoint`: one session of the translation stream, written as
    the source runs it (a configuration read, then a `while True` loop per
    turn around a `while True` receive loop), with the session's loop
    variables held as fields. Each method is proved to compute the matching
    `SessionSpec` function, and `Serve` to compute `SessionSpec.Run`. */
module Endpoint {
  import opened Optional
  import opened Text
  import opened Pipelines
  import opened Protocol
  import opened SessionSpec

  class Session {
    /** The process-wide cache, shared with every other session. */
    const manager: PipelineManager
    var phase: Phase
    var source: string
    var target: string
    var buffer: seq<bv8>
    var outbox: seq<Outbound>
    var turns: nat

    /** The session's state as a value. */
    function Current(): State
      reads this, manager
    {
      State(phase, source, target, buffer, outbox, turns, manager.translationPipelines)
    }

    /** An accepted connection, waiting for its configuration. */
    constructor (manager: PipelineManager)
      ensures this.manager == manager
      ensures Current() == Initial(manager.translationPipelines)
    {
      this.manager := manager;
      phase := AwaitingConfig;
      source, target := "", "";
      buffer := [];
      outbox := [];
      turns := 0;
    }

    /** Reads the configuration message and either opens the session or
        closes it. */
    method Configure(message: Inbound)
      requires phase == AwaitingConfig
      modifies this
      ensures Current() == SessionSpec.Configure(old(Current()), message)
    {
      match message
      case Json(Object(event, sourceLang, targetLang)) =>
        if event == Some(StartEvent) {
          if Truthy(sourceLang) && Truthy(targetLang) {
            source, target := sourceLang.value, targetLang.value;
            phase := Receiving;
          } else {
            outbox := outbox + [Close(UnsupportedData, MissingLanguageReason)];
            phase := Terminated;
          }
        } else {
          outbox := outbox + [Close(UnsupportedData, NotStartReason)];
          phase := Terminated;
        }
      case _ =>
        // receive_json raises (binary, non-JSON, disconnect) or `.get` does
        // (a JSON value that is not an object); either handler ends the session
        phase := Terminated;
    }

    /** One iteration of the receive loop: reports whether the message is
        `end_of_speech` (which changes nothing here), and otherwise applies it. */
    method Receive(message: Inbound) returns (endOfSpeech: bool)
      requires phase == Receiving
      modifies this
      ensures endOfSpeech == IsEndOfSpeech(message)
      ensures endOfSpeech ==> Current() == old(Current())
      ensures !endOfSpeech ==> Current() == Absorb(old(Current()), message)
    {
      endOfSpeech := false;
      match message
      case Bytes(chunk) =>
        buffer := buffer + chunk;
      case Json(doc) =>
        match doc {
          case Object(event, _, _) =>
            endOfSpeech := event == Some(EndOfSpeechEvent);
          case NonObject =>
            // `.get` on a JSON value that is not an object raises
            phase := Terminated;
        }
      case NonJson =>
        // json.JSONDecodeError is caught and the message ignored
      case Disconnect =>
        phase := Terminated;
    }

    /** Processes the finished turn's audio and sends its one message. */
    method ProcessTurn(env: Env)
      requires phase == Receiving
      modifies this, manager
      ensures Current() == SessionSpec.ProcessTurn(old(Current()), env)
    {
      if buffer == [] {
        outbox := outbox + [NoSpeechDetected];
      } else if |buffer| % 2 == 1 {
        // np.frombuffer(..., dtype=np.int16) raises on a partial sample
        phase := Terminated;
      } else {
        var originalText := Strip(env.transcribe(buffer, SampleRate, source));
        if originalText == "" {
          outbox := outbox + [NoSpeechDetected];
        } else {
          var translator := manager.GetTranslationPipeline(source, target, env.load(turns));
          match translator
          case Some(h) =>
            var translatedText := env.translate(h, originalText);
            outbox := outbox + [FinalTranslation(originalText, translatedText)];
          case None =>
            outbox := outbox + [Error(TranslationUnavailable)];
        }
      }
    }

    /** Exchanges the roles for the next turn and counts the finished one. */
    method SwapRoles()
      modifies this
      ensures Current() == EndTurn(old(Current()))
    {
      source, target := target, source;
      turns := turns + 1;
    }

    /** The end of a turn: processing, then, unless that ended the session,
        the exchange of roles. The buffer is emptied when the next turn
        starts. */
    method FinishTurn(env: Env)
      requires phase == Receiving
      modifies this, manager
      ensures phase == Receiving || phase == Terminated
      ensures phase == Terminated ==> Current() == CompleteTurn(old(Current()), env)
      ensures phase == Receiving ==> Current().(buffer := []) == CompleteTurn(old(Current()), env)
    {
      ProcessTurn(env);
      if phase == Receiving {
        SwapRoles();
      }
    }

    /** The receive loop of one turn, reading `events` from `start`: stops
        after `end_of_speech` (reported, and not applied), when the session
        ends, or when the stream is used up. The messages before `kept` all
        kept the session receiving, and the buffer gained exactly their binary
        chunks; the message at `kept`, if read, ended the turn or the session,
        and nothing else about the session changed. */
    method ReceiveTurn(events: seq<Inbound>, start: nat)
      returns (consumed: nat, endOfSpeech: bool, ghost kept: nat)
      requires phase == Receiving && start <= |events|
      modifies this
      ensures start <= kept <= consumed <= |events|
      ensures forall i :: start <= i < kept ==> KeepsReceiving(events[i])
      ensures buffer == old(buffer) + Chunks(events[start..kept])
      ensures source == old(source) && target == old(target) && outbox == old(outbox) && turns == old(turns)
      ensures phase == Receiving || phase == Terminated
      ensures endOfSpeech ==> phase == Receiving && consumed == kept + 1 && IsEndOfSpeech(events[kept])
      ensures !endOfSpeech && phase == Receiving ==> consumed == kept == |events|
      ensures phase == Terminated ==>
                !endOfSpeech && consumed == kept + 1
                && !IsEndOfSpeech(events[kept]) && !KeepsReceiving(events[kept])
    {
      consumed, endOfSpeech, kept := start, false, start;
      while !endOfSpeech && phase == Receiving && consumed < |events|
        invariant start <= kept <= consumed <= |events|
        invariant forall i :: start <= i < kept ==> KeepsReceiving(events[i])
        invariant buffer == old(buffer) + Chunks(events[start..kept])
        invariant source == old(source) && target == old(target) && outbox == old(outbox) && turns == old(turns)
        invariant phase == Receiving || phase == Terminated
        invariant endOfSpeech ==> phase == Receiving && consumed == kept + 1 && IsEndOfSpeech(events[kept])
        invariant !endOfSpeech && phase == Receiving ==> consumed == kept
        invariant phase == Terminated ==>
                    !endOfSpeech && consumed == kept + 1
                    && !IsEndOfSpeech(events[kept]) && !KeepsReceiving(events[kept])
        decreases |events| - consumed, if endOfSpeech then 0 else 1
      {
        endOfSpeech := Receive(events[consumed]);
        consumed := consumed + 1;
        if phase == Receiving && !endOfSpeech {
          ChunksStep(events, start, kept);
          kept := consumed;
        }
      }
    }

    /** One turn of the session, from an empty buffer: the receive loop, then,
        at `end_of_speech`, the end of the turn. `more` says whether the
        session goes on to another turn; if not, the session has ended or the
        stream is used up, and the state is the replay of what was read. */
    method ServeTurn(events: seq<Inbound>, start: nat, env: Env, ghost s0: State)
      returns (consumed: nat, more: bool)
      requires phase == Receiving && start <= |events|
      requires Current().(buffer := []) == Run(s0, events[..start], env)
      modifies this, manager
      ensures start <= consumed <= |events|
      ensures more ==> start < consumed && phase == Receiving
                       && Current().(buffer := []) == Run(s0, events[..consumed], env)
      ensures !more ==> Current() == Run(s0, events[..consumed], env)
                        && (consumed < |events| ==> phase == Terminated)
    {
      buffer := [];
      ghost var t := Current();
      var endOfSpeech;
      ghost var kept;
      consumed, endOfSpeech, kept := ReceiveTurn(events, start);
      if !endOfSpeech {
        ReceiveStopped(s0, events, start, kept, consumed, t, Current(), env);
        return consumed, false;
      }
      more := CloseTurn(events, start, kept, consumed, env, s0, t);
    }

    /** The end of a turn reached by `end_of_speech` at `kept`, after the
        receive loop of a turn that started from the state `t`. */
    method CloseTurn(events: seq<Inbound>, ghost start: nat, ghost kept: nat, consumed: nat, env: Env,
                     ghost s0: State, ghost t: State) returns (more: bool)
      requires start <= kept < |events| && consumed == kept + 1
      requires t == Run(s0, events[..start], env) && t.phase == Receiving && t.buffer == []
      requires forall i :: start <= i < kept ==> KeepsReceiving(events[i])
      requires IsEndOfSpeech(events[kept])
      requires phase == Receiving && buffer == Chunks(events[start..kept])
      requires source == t.source && target == t.target && outbox == t.outbox && turns == t.turns
      requires manager.translationPipelines == t.pipelines
      modifies this, manager
      ensures more ==> phase == Receiving && Current().(buffer := []) == Run(s0, events[..consumed], env)
      ensures !more ==> phase == Terminated && Current() == Run(s0, events[..consumed], env)
    {
      assert Current() == t.(buffer := Chunks(events[start..kept]));
      TurnEnds(s0, events, start, kept, t, env);
      FinishTurn(env);
      more := phase == Receiving;
    }

    /** The whole endpoint over the inbound messages `events`: returns how many
        it read, which is all of them unless the session ended first. */
    method Serve(events: seq<Inbound>, env: Env) returns (consumed: nat)
      requires phase == AwaitingConfig && buffer == [] && outbox == [] && turns == 0
      modifies this, manager
      ensures consumed <= |events|
      ensures consumed < |events| ==> phase == Terminated
      ensures Current() == Run(old(Current()), events[..consumed], env)
      ensures Current() == Run(old(Current()), events, env)
    {
      ghost var s0 := Current();
      consumed := 0;
      if events == [] {
        return;
      }
      Configure(events[0]);
      consumed := 1;
      assert events[..1][..0] == [];
      var more := phase == Receiving;
      while more
        invariant 1 <= consumed <= |events|
        invariant more ==> phase == Receiving && Current().(buffer := []) == Run(s0, events[..consumed], env)
        invariant !more ==> Current() == Run(s0, events[..consumed], env)
                            && (consumed < |events| ==> phase == Terminated)
        decreases |events| - consumed, more
      {
        consumed, more := ServeTurn(events, consumed, env, s0);
      }
      Settled(s0, events, consumed, env);
    }
  }

  /** Receiving one more message of a stretch appends its chunk. */
  lemma ChunksStep(events: seq<Inbound>, start: nat, kept: nat)
    requires start <= kept < |events|
    ensures Chunks(events[start..kept + 1]) == Chunks(events[start..kept]) + Chunks([events[kept]])
  {
    var stretch := events[start..kept + 1];
    assert stretch[..|stretch| - 1] == events[start..kept];
    assert [events[kept]][..0] == [];
  }

  /** A prefix is a shorter prefix followed by the stretch between them. */
  lemma PrefixSplit(events: seq<Inbound>, start: nat, kept: nat)
    requires start <= kept <= |events|
    ensures events[..kept] == events[..start] + events[start..kept]
  {
    assert forall i :: 0 <= i < kept ==> events[..kept][i] == (events[..start] + events[start..kept])[i];
  }

  /** Messages that keep the session receiving, read from the state `t` with
      an empty buffer, only add their chunks. */
  lemma ReceivedPrefix(s0: State, events: seq<Inbound>, start: nat, kept: nat, t: State, env: Env)
    requires start <= kept <= |events|
    requires t == Run(s0, events[..start], env) && t.phase == Receiving && t.buffer == []
    requires forall i :: start <= i < kept ==> KeepsReceiving(events[i])
    ensures Run(s0, events[..kept], env) == t.(buffer := Chunks(events[start..kept]))
  {
    PrefixSplit(events, start, kept);
    RunAppend(s0, events[..start], events[start..kept], env);
    ReceiveLoopBuffers(t, events[start..kept], env);
    assert t.buffer + Chunks(events[start..kept]) == Chunks(events[start..kept]);
  }

  /** A receive loop that stopped without `end_of_speech`, from the state `t`
      with an empty buffer, leaving the state `cur`: either the stream is used
      up, or the message at `kept` ended the session. */
  lemma ReceiveStopped(s0: State, events: seq<Inbound>, start: nat, kept: nat, consumed: nat,
                       t: State, cur: State, env: Env)
    requires start <= kept <= consumed <= |events|
    requires t == Run(s0, events[..start], env) && t.phase == Receiving && t.buffer == []
    requires forall i :: start <= i < kept ==> KeepsReceiving(events[i])
    requires cur.source == t.source && cur.target == t.target && cur.outbox == t.outbox
             && cur.turns == t.turns && cur.pipelines == t.pipelines
             && cur.buffer == Chunks(events[start..kept])
    requires cur.phase == Receiving ==> consumed == kept == |events|
    requires cur.phase != Receiving ==>
               cur.phase == Terminated && consumed == kept + 1
               && !IsEndOfSpeech(events[kept]) && !KeepsReceiving(events[kept])
    ensures cur == Run(s0, events[..consumed], env)
  {
    ReceivedPrefix(s0, events, start, kept, t, env);
    if cur.phase != Receiving {
      var mid := t.(buffer := Chunks(events[start..kept]));
      RunExtend(s0, events, kept, env);
      assert events[..consumed] == events[..kept + 1];
      assert cur == Absorb(mid, events[kept]);
    }
  }

  /** A receive loop that stopped at `end_of_speech`, from the state `t` with
      an empty buffer: the turn is completed on the chunks received since. */
  lemma TurnEnds(s0: State, events: seq<Inbound>, start: nat, kept: nat, t: State, env: Env)
    requires start <= kept < |events|
    requires t == Run(s0, events[..start], env) && t.phase == Receiving && t.buffer == []
    requires forall i :: start <= i < kept ==> KeepsReceiving(events[i])
    requires IsEndOfSpeech(events[kept])
    ensures Run(s0, events[..kept + 1], env) == CompleteTurn(t.(buffer := Chunks(events[start..kept])), env)
  {
    ReceivedPrefix(s0, events, start, kept, t, env);
    RunExtend(s0, events, kept, env);
  }

  /** Once the stream is used up or the session has ended, the rest of the
      stream makes no difference. */
  lemma Settled(s: State, events: seq<Inbound>, consumed: nat, env: Env)
    requires consumed <= |events|
    requires consumed < |events| ==> Run(s, events[..consumed], env).phase == Terminated
    ensures Run(s, events, env) == Run(s, events[..consumed], env)
  {
    assert events == events[..consumed] + events[consumed..];
    RunAppend(s, events[..consumed], events[consumed..], env);
    if consumed < |events| {
      TerminatedIsFinal(Run(s, events[..consumed], env), events[consumed..], env);
    }
  }
}
