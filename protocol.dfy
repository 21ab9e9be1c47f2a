/** The messages of the `/ws/translate_stream` WebSocket endpoint, as the
    session sees them after transport decoding, and the protocol constants. */
module Protocol {
  import opened Optional

  /** A text frame that `json.loads` accepted. Only the fields the session
      reads are kept; a field that is absent or `null` is `None`. Any JSON
      value other than an object (an array, a string, a number, ...) is
      `NonObject`: calling `.get` on it raises. */
  datatype JsonDoc =
    | Object(event: Option<string>, sourceLang: Option<string>, targetLang: Option<string>)
    | NonObject

  /** One inbound WebSocket message: a binary frame of raw 16-bit PCM, a text
      frame holding JSON, a text frame that is not JSON, or the client going
      away. */
  datatype Inbound =
    | Bytes(chunk: seq<bv8>)
    | Json(doc: JsonDoc)
    | NonJson
    | Disconnect

  /** One outbound message: the three JSON text frames a turn can produce,
      and the close frame of a rejected configuration. */
  datatype Outbound =
    | NoSpeechDetected
    | FinalTranslation(originalText: string, translatedText: string)
    | Error(message: string)
    | Close(code: int, reason: string)

  const StartEvent: string := "start"
  const EndOfSpeechEvent: string := "end_of_speech"

  /** Close code 1003 ("unsupported data", section 7.4.1 of RFC 6455). */
  const UnsupportedData: int := 1003
  const MissingLanguageReason: string := "Falta source_lang o target_lang"
  const NotStartReason: string := "El primer mensaje debe ser 'start'"
  const TranslationUnavailable: string := "Translation model failed to load"

  /** The sampling rate the audio is declared to have when it is transcribed. */
  const SampleRate: int := 16000

  /** Python truthiness of a language field: present, and not the empty string. */
  predicate Truthy(field: Option<string>) {
    field.Some? && field.value != ""
  }

  /** A configuration message that opens the session. */
  predicate IsValidStart(m: Inbound) {
    m.Json? && m.doc.Object? && m.doc.event == Some(StartEvent)
    && Truthy(m.doc.sourceLang) && Truthy(m.doc.targetLang)
  }

  /** The message that ends the current turn's reception. */
  predicate IsEndOfSpeech(m: Inbound) {
    m.Json? && m.doc.Object? && m.doc.event == Some(EndOfSpeechEvent)
  }

  /** A message that, during reception, neither ends the turn nor the session. */
  predicate KeepsReceiving(m: Inbound) {
    m.Bytes? || m.NonJson? || (m.Json? && m.doc.Object? && !IsEndOfSpeech(m))
  }

  /** The audio carried by the binary frames of `events`, in arrival order. */
  function Chunks(events: seq<Inbound>): seq<bv8>
    decreases |events|
  {
    if events == [] then []
    else
      var last := events[|events| - 1];
      Chunks(events[..|events| - 1]) + (if last.Bytes? then last.chunk else [])
  }
}
