/** Content written as parts is read as those parts (internal/model/multimodal.go). */
module MessageParts {
  import opened Common
  import opened Messages

  /** A part as clients write it. */
  function Written(part: ContentPart): Json {
    match part
    case TextPart(t) => Obj(map["type" := Str("text"), "text" := Str(t)])
    case ImagePart(url, detail) =>
      Obj(map["type" := Str("image_url"), "image_url" := Obj(map["url" := Str(url), "detail" := Str(detail)])])
    case AudioPart(data, format) =>
      Obj(map["type" := Str("input_audio"), "input_audio" := Obj(map["data" := Str(data), "format" := Str(format)])])
  }

  function WrittenAll(parts: seq<ContentPart>): (r: seq<Json>)
    ensures |r| == |parts|
  {
    seq(|parts|, i requires 0 <= i < |parts| => Written(parts[i]))
  }

  /** An item of another type, or none at all, is no part. */
  predicate IsNoPart(item: Json) {
    !item.Obj? || "type" !in item.fields || item.fields["type"] !in {Str("text"), Str("image_url"), Str("input_audio")}
  }

  lemma OneIsRead(part: ContentPart)
    ensures PartOf(Written(part)) == [part]
  {
  }

  /** What a picture or a sound does not say is read as nothing. */
  lemma MissingIsEmpty()
    ensures PartOf(Obj(map["type" := Str("image_url"), "image_url" := Obj(map[])])) == [ImagePart("", "")]
    ensures PartOf(Obj(map["type" := Str("input_audio"), "input_audio" := Obj(map[])])) == [AudioPart("", "")]
  {
  }

  lemma NoPartIsRead(item: Json)
    requires IsNoPart(item)
    ensures PartOf(item) == []
  {
  }

  lemma {:induction false} ItemsAreRead(parts: seq<ContentPart>)
    ensures PartsOf(WrittenAll(parts)) == parts
  {
    hide Written, PartOf;
    if parts != [] {
      var n := |parts| - 1;
      ItemsAreRead(parts[..n]);
      OneIsRead(parts[n]);
      assert WrittenAll(parts)[..n] == WrittenAll(parts[..n]);
    }
  }

  lemma {:induction false} ForeignItemsAreSkipped(before: seq<Json>, item: Json, after: seq<Json>)
    requires IsNoPart(item)
    ensures PartsOf(before + [item] + after) == PartsOf(before + after)
    decreases |after|
  {
    hide PartOf, IsNoPart;
    var all := before + [item] + after;
    if after == [] {
      NoPartIsRead(item);
      assert all[..|all| - 1] == before && before + after == before;
    } else {
      var n := |after| - 1;
      ForeignItemsAreSkipped(before, item, after[..n]);
      assert all[..|all| - 1] == before + [item] + after[..n];
      assert (before + after)[..|before + after| - 1] == before + after[..n];
    }
  }

  /** Parts come out as they were written, a text as one part, nothing as none; items of other types are skipped. */
  lemma PartsAreRead(codec: Codec, parts: seq<ContentPart>, before: seq<Json>, foreign: Json, after: seq<Json>)
    ensures ParsedContent(codec, Value(Arr(WrittenAll(parts)))) == parts
    ensures ParsedContent(codec, Value(Null)) == []
    ensures forall t :: ParsedContent(codec, Value(Str(t))) == [TextPart(t)] && ContentString(codec, Value(Str(t))) == t
    ensures ContentString(codec, Value(Null)) == ""
    ensures IsNoPart(foreign) ==>
              ParsedContent(codec, Value(Arr(before + [foreign] + after))) == ParsedContent(codec, Value(Arr(before + after)))
  {
    hide PartsOf, IsNoPart;
    ItemsAreRead(parts);
    if IsNoPart(foreign) {
      ForeignItemsAreSkipped(before, foreign, after);
    }
  }
}
