/** The two engine adapters. Each engine is an oracle that either returns text
    or raises (`None`); the adapters turn a raise into a fixed result instead of
    passing it on. */
module Adapters {
  import opened Wrappers

  const NO_TRANSCRIPT := "No transcript available"
  const SUMMARIZATION_ERROR := "Error in summarization"
  /** The summariser's input length bound, in characters. */
  const SUMMARY_INPUT_LIMIT := 1000

  /** The transcription adapter: the engine's (already stripped) text, or ""
      when the engine raises. It never raises itself. */
  function TranscribeAudio(path: string, model: string -> Option<string>): (text: string)
    ensures model(path).None? ==> text == ""
    ensures text != "" ==> model(path) == Some(text)
    ensures model(path).Some? ==> text == model(path).value
  {
    match model(path)
    case Some(t) => t
    case None => ""
  }

  /** The text handed to the summarisation engine: `text[:1000]`. */
  function EngineInput(text: string): (input: string)
    ensures |input| <= SUMMARY_INPUT_LIMIT && |input| <= |text|
    ensures input == text[..|input|]
    ensures |input| == |text| || |input| == SUMMARY_INPUT_LIMIT
  {
    if |text| <= SUMMARY_INPUT_LIMIT then text else text[..SUMMARY_INPUT_LIMIT]
  }

  /** The summarisation adapter: the empty-text sentinel without consulting the
      engine, otherwise the engine's summary of the truncated text, or the
      error sentinel when the engine raises. */
  function SummarizeText(text: string, engine: string -> Option<string>): (summary: string)
    ensures text == "" ==> summary == NO_TRANSCRIPT
    ensures text != "" && engine(EngineInput(text)).None? ==> summary == SUMMARIZATION_ERROR
    ensures text != "" && engine(EngineInput(text)).Some? ==> summary == engine(EngineInput(text)).value
  {
    if text == "" then NO_TRANSCRIPT
    else
      match engine(EngineInput(text))
      case Some(s) => s
      case None => SUMMARIZATION_ERROR
  }

  /** The engine is not consulted for empty text: any two engines give the same result. */
  lemma SummarizeEmptyIgnoresEngine(e1: string -> Option<string>, e2: string -> Option<string>)
    ensures SummarizeText("", e1) == SummarizeText("", e2) == NO_TRANSCRIPT
  {
  }

  /** The engine sees only the first 1000 characters: engines that agree on
      that prefix give the same summary, whatever follows it. */
  lemma SummarizeSeesOnlyPrefix(text: string, e1: string -> Option<string>, e2: string -> Option<string>)
    requires text != "" ==> e1(EngineInput(text)) == e2(EngineInput(text))
    ensures SummarizeText(text, e1) == SummarizeText(text, e2)
  {
  }

  /** Text after the first 1000 characters never changes the summary. */
  lemma SummarizeIgnoresTail(head: string, tail: string, engine: string -> Option<string>)
    requires |head| == SUMMARY_INPUT_LIMIT
    ensures SummarizeText(head + tail, engine) == SummarizeText(head, engine)
  {
    assert (head + tail)[..SUMMARY_INPUT_LIMIT] == head;
  }

  /** Text of at most 1000 characters reaches the engine whole. */
  lemma SummarizeShortTextWhole(text: string, engine: string -> Option<string>)
    requires text != "" && |text| <= SUMMARY_INPUT_LIMIT
    ensures SummarizeText(text, engine) ==
      if engine(text).Some? then engine(text).value else SUMMARIZATION_ERROR
  {
  }

  /** A transcription failure becomes the "no transcript" summary. */
  lemma TranscriptionFailureSummary(path: string, model: string -> Option<string>, engine: string -> Option<string>)
    requires model(path).None?
    ensures SummarizeText(TranscribeAudio(path, model), engine) == NO_TRANSCRIPT
  {
  }
}
