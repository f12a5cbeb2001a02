/** The canonical (OpenAI-shaped) chat messages (internal/model/chat.go, internal/model/multimodal.go). */
module Messages {
  import opened Common
  import opened Text

  datatype Json =
    | Null
    | Bool(b: bool)
    | Num(digits: string)
    | Str(s: string)
    | Arr(items: seq<Json>)
    | Obj(fields: map<string, Json>)

  datatype ContentPart =
    | TextPart(text: string)
    | ImagePart(url: string, detail: string)
    | AudioPart(data: string, format: string)

  /** A message's content: decoded JSON, or the typed parts a translator put there. */
  datatype Content = Value(json: Json) | Parts(parts: seq<ContentPart>)

  /** The JSON codec, which is foreign. */
  datatype Codec = Codec(
    marshal: Json -> string,
    marshalParts: seq<ContentPart> -> string,
    unmarshal: string -> Option<Json>)

  datatype ToolCall = ToolCall(index: Option<nat>, id: string, kind: string, name: string, arguments: string)

  datatype ChatMessage = ChatMessage(
    role: string, content: Content, reasoning: string, name: string,
    toolCalls: seq<ToolCall>, toolCallId: string)

  function Plain(role: string, content: Content): ChatMessage {
    ChatMessage(role, content, "", "", [], "")
  }

  /** A field of a JSON object, Null when it is missing or the value is no object. */
  function Field(j: Json, key: string): Json {
    if j.Obj? && key in j.fields then j.fields[key] else Null
  }

  function StringOf(j: Json): string {
    if j.Str? then j.s else ""
  }

  function ContentString(codec: Codec, c: Content): string {
    match c
    case Value(Null) => ""
    case Value(Str(s)) => s
    case Value(j) => codec.marshal(j)
    case Parts(ps) => codec.marshalParts(ps)
  }

  function PartOf(item: Json): seq<ContentPart> {
    var kind := StringOf(Field(item, "type"));
    if kind == "text" && Field(item, "text").Str? then [TextPart(Field(item, "text").s)]
    else if kind == "image_url" && Field(item, "image_url").Obj? then
      var image := Field(item, "image_url");
      [ImagePart(StringOf(Field(image, "url")), StringOf(Field(image, "detail")))]
    else if kind == "input_audio" && Field(item, "input_audio").Obj? then
      var audio := Field(item, "input_audio");
      [AudioPart(StringOf(Field(audio, "data")), StringOf(Field(audio, "format")))]
    else []
  }

  function PartsOf(items: seq<Json>): seq<ContentPart> {
    if items == [] then [] else PartsOf(items[..|items| - 1]) + PartOf(items[|items| - 1])
  }

  function ParsedContent(codec: Codec, c: Content): seq<ContentPart> {
    match c
    case Value(Null) => []
    case Value(Str(s)) => [TextPart(s)]
    case Value(Arr(items)) => PartsOf(items)
    case _ => [TextPart(ContentString(codec, c))]
  }

  method ParseMessageContent(codec: Codec, raw: Content) returns (parts: seq<ContentPart>)
    ensures parts == ParsedContent(codec, raw)
  {
    if raw == Value(Null) {
      return [];
    }
    if raw.Value? && raw.json.Str? {
      return [TextPart(raw.json.s)];
    }
    if raw.Value? && raw.json.Arr? {
      parts := [];
      var items := raw.json.items;
      for i := 0 to |items|
        invariant parts == PartsOf(items[..i])
      {
        assert items[..i + 1][..i] == items[..i];
        parts := parts + PartOf(items[i]);
      }
      assert items[..|items|] == items;
      return;
    }
    return [TextPart(ContentString(codec, raw))];
  }

  predicate HasImage(parts: seq<ContentPart>) {
    exists i :: 0 <= i < |parts| && parts[i].ImagePart?
  }

  const BASE64_MARK := ";base64,"

  /** The media type and the data of a "data:" URI; anything else counts as raw JPEG data. */
  function ParseDataURI(uri: string): (string, string) {
    if !("data:" <= uri) then ("image/jpeg", uri)
    else
      var body := uri[5..];
      var i := IndexOf(body, BASE64_MARK);
      if i < 0 then ("image/jpeg", uri) else (body[..i], body[i + |BASE64_MARK|..])
  }
}
