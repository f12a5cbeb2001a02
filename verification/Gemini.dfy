/** Gemini's request shape (internal/provider/gemini.go). */
module Gemini {
  import opened Common
  import opened Messages

  datatype Part = Part(
    text: string,
    inlineData: Option<InlineData>,
    functionCall: Option<FunctionCall>,
    functionResponse: Option<FunctionResponse>)

  datatype InlineData = InlineData(mimeType: string, data: string)

  /** `args` is None for Go's nil map. */
  datatype FunctionCall = FunctionCall(name: string, args: Option<map<string, Json>>)

  datatype FunctionResponse = FunctionResponse(name: string, response: Option<map<string, Json>>)

  datatype Content = Content(role: string, parts: seq<Part>)

  datatype Config = Config(temperature: Option<real>, topP: Option<real>, maxOutputTokens: Option<int>, stop: seq<string>)

  /** What a request holds, `system` being None when it has no system instruction. */
  datatype Snapshot = Snapshot(contents: seq<Content>, system: Option<seq<Part>>, config: Option<Config>)

  function TextPart(t: string): Part { Part(t, None, None, None) }

  class GeminiRequest {
    var contents: seq<Content>
    var system: Option<seq<Part>>
    var config: Option<Config>

    constructor (s: Snapshot)
      ensures Value() == s
    {
      contents, system, config := s.contents, s.system, s.config;
    }

    function Value(): Snapshot
      reads this
    {
      Snapshot(contents, system, config)
    }
  }
}
