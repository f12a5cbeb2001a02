/** An upstream channel and the requests it serves (internal/model/channel.go). */
module Channels {
  datatype Channel = Channel(
    name: string,
    ptype: string,
    models: seq<string>,
    modelMapping: map<string, string>,
    protocols: seq<string>,
    priority: int,
    weight: int)

  const CHAT := {"chat", "openai_chat"}
  const RESPONSES := {"response", "responses", "openai_response", "openai_responses"}

  /** Names of one protocol; a channel that lists one of them serves a request for any other. */
  const FAMILIES: seq<set<string>> := [
    CHAT,
    RESPONSES,
    {"completion", "openai_text"},
    {"messages", "anthropic_messages"},
    {"images", "image_generation"},
    {"audio", "audio_speech", "tts"},
    {"audio", "audio_transcription", "stt"},
    {"videos", "video_generation"},
    {"embeddings", "embedding", "openai_embeddings"},
    {"rerank", "reranker", "cohere_rerank"}]

  predicate Serves(listed: string, proto: string) {
    || listed == "*"
    || listed == proto
    || (exists i :: 0 <= i < |FAMILIES| && listed in FAMILIES[i] && proto in FAMILIES[i])
    || (listed in CHAT && proto in RESPONSES)
  }

  predicate SupportsProtocol(ch: Channel, proto: string) {
    ch.protocols == [] || exists i :: 0 <= i < |ch.protocols| && Serves(ch.protocols[i], proto)
  }

  /** `pattern` ends in a slash and a star, and `model` starts with what precedes the star. */
  predicate MatchesWildcard(pattern: string, model: string) {
    |pattern| >= 2 && pattern[|pattern| - 2..] == "/*" && pattern[..|pattern| - 1] <= model
  }

  predicate ListsModel(ch: Channel, model: string) {
    || (exists i :: 0 <= i < |ch.models| &&
          (ch.models[i] == "*" || ch.models[i] == model || MatchesWildcard(ch.models[i], model)))
    || model in ch.modelMapping
    || (exists pattern :: pattern in ch.modelMapping && MatchesWildcard(pattern, model))
  }

  predicate SupportsModel(ch: Channel, model: string)
    decreases |model|
  {
    || ListsModel(ch, model)
    || (ch.name + "/" <= model && SupportsModel(ch, model[|ch.name| + 1..]))
  }

  /** `model` behind `k` copies of the channel's own prefix. */
  function Prefixed(ch: Channel, k: nat, model: string): string {
    if k == 0 then model else ch.name + "/" + Prefixed(ch, k - 1, model)
  }

  lemma {:induction false} PrefixedIsSupported(ch: Channel, k: nat, model: string)
    requires ListsModel(ch, model)
    ensures SupportsModel(ch, Prefixed(ch, k, model))
  {
    hide ListsModel;
    if k > 0 {
      PrefixedIsSupported(ch, k - 1, model);
      assert Prefixed(ch, k, model)[|ch.name| + 1..] == Prefixed(ch, k - 1, model);
    }
  }

  lemma {:induction false} SupportedIsPrefixed(ch: Channel, model: string) returns (k: nat, base: string)
    requires SupportsModel(ch, model)
    ensures model == Prefixed(ch, k, base) && ListsModel(ch, base)
    decreases |model|
  {
    hide ListsModel;
    if ListsModel(ch, model) {
      k, base := 0, model;
    } else {
      k, base := SupportedIsPrefixed(ch, model[|ch.name| + 1..]);
      k := k + 1;
      assert model == ch.name + "/" + model[|ch.name| + 1..];
    }
  }

  /** A channel serves exactly the models it lists, each behind any number of its own name prefixes. */
  lemma SupportsListedModelsBehindOwnPrefix(ch: Channel, model: string)
    ensures SupportsModel(ch, model) <==>
            exists k: nat, base :: model == Prefixed(ch, k, base) && ListsModel(ch, base)
  {
    if SupportsModel(ch, model) {
      var k, base := SupportedIsPrefixed(ch, model);
    }
    forall k: nat, base | model == Prefixed(ch, k, base) && ListsModel(ch, base)
      ensures SupportsModel(ch, model)
    {
      PrefixedIsSupported(ch, k, base);
    }
  }

  // ---- What a channel's configuration says ----

  /** A prefix followed by a slash and a star is configured, and the model begins with the prefix and a slash. */
  predicate BehindPrefix(configured: string -> bool, model: string) {
    exists n :: 0 <= n < |model| && model[n] == '/' && configured(model[..n] + "/*")
  }

  lemma WildcardIsPrefix(pattern: string, model: string)
    ensures MatchesWildcard(pattern, model) <==>
              exists n :: 0 <= n < |model| && model[n] == '/' && pattern == model[..n] + "/*"
  {
    if MatchesWildcard(pattern, model) {
      var n := |pattern| - 2;
      assert pattern == pattern[..n] + "/*" && pattern[..n + 1] == pattern[..n] + "/";
      assert model[..n + 1] == pattern[..n + 1] && model[..n] == pattern[..n] && model[n] == pattern[n];
    }
    if n :| 0 <= n < |model| && model[n] == '/' && pattern == model[..n] + "/*" {
      assert pattern[..|pattern| - 1] == model[..n] + "/" == model[..n + 1];
      assert pattern[|pattern| - 2..] == "/*";
    }
  }

  /** A model is listed by name, by a star, by a name mapping, or by what stands before a slash of it and a star. */
  lemma ListedIff(ch: Channel, model: string)
    ensures ListsModel(ch, model) <==>
              || "*" in ch.models || model in ch.models || model in ch.modelMapping
              || BehindPrefix(p => p in ch.models, model) || BehindPrefix(p => p in ch.modelMapping, model)
  {
    hide MatchesWildcard;
    forall pattern
      ensures MatchesWildcard(pattern, model) <==>
                exists n :: 0 <= n < |model| && model[n] == '/' && pattern == model[..n] + "/*"
    {
      WildcardIsPrefix(pattern, model);
    }
    if ListsModel(ch, model) {
      ListedByName(ch, model);
    }
    if BehindPrefix(p => p in ch.models, model) {
      var n :| 0 <= n < |model| && model[n] == '/' && model[..n] + "/*" in ch.models;
      var i :| 0 <= i < |ch.models| && ch.models[i] == model[..n] + "/*";
      assert MatchesWildcard(ch.models[i], model);
    }
    if BehindPrefix(p => p in ch.modelMapping, model) {
      var n :| 0 <= n < |model| && model[n] == '/' && model[..n] + "/*" in ch.modelMapping;
      assert MatchesWildcard(model[..n] + "/*", model);
    }
  }

  lemma ListedByName(ch: Channel, model: string)
    requires ListsModel(ch, model)
    ensures || "*" in ch.models || model in ch.models || model in ch.modelMapping
            || BehindPrefix(p => p in ch.models, model) || BehindPrefix(p => p in ch.modelMapping, model)
  {
    hide MatchesWildcard;
    if i :| 0 <= i < |ch.models| && MatchesWildcard(ch.models[i], model) {
      WildcardIsPrefix(ch.models[i], model);
    } else if pattern :| pattern in ch.modelMapping && MatchesWildcard(pattern, model) {
      WildcardIsPrefix(pattern, model);
    }
  }

  /** Two names of one protocol. */
  predicate SameProtocol(a: string, b: string) {
    exists i :: 0 <= i < |FAMILIES| && a in FAMILIES[i] && b in FAMILIES[i]
  }

  lemma ServesMeans(listed: string, proto: string)
    ensures Serves(listed, proto) <==>
              || listed == "*" || listed == proto || SameProtocol(listed, proto)
              || (listed in {"chat", "openai_chat"}
                  && proto in {"response", "responses", "openai_response", "openai_responses"})
  {
  }

  /** A protocol is spoken if none is configured, a star is, it is, another name of it is, or chat is and responses are asked for. */
  lemma SpokenIff(ch: Channel, proto: string)
    ensures SupportsProtocol(ch, proto) <==>
              || ch.protocols == [] || "*" in ch.protocols || proto in ch.protocols
              || (exists listed :: listed in ch.protocols && SameProtocol(listed, proto))
              || (("chat" in ch.protocols || "openai_chat" in ch.protocols)
                  && proto in {"response", "responses", "openai_response", "openai_responses"})
  {
    hide Serves, SameProtocol;
    forall listed
      ensures Serves(listed, proto) <==>
                || listed == "*" || listed == proto || SameProtocol(listed, proto)
                || (listed in {"chat", "openai_chat"}
                    && proto in {"response", "responses", "openai_response", "openai_responses"})
    {
      ServesMeans(listed, proto);
    }
    assert SupportsProtocol(ch, proto) <==> ch.protocols == [] || exists listed :: listed in ch.protocols && Serves(listed, proto);
  }
}
