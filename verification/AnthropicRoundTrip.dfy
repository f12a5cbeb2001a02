/** What a conversation still says after going to Anthropic's form and back. */
module AnthropicRoundTrip {
  import opened Common
  import opened Text
  import opened Messages
  import opened AnthropicTranslation

  function Returned(codec: Codec, ms: seq<ChatMessage>): seq<ChatMessage> {
    SystemMessage(Join(SystemParts(codec, ms), "\n\n")) + ReceivedAll(codec, AllOnWire(SentAll(codec, [], ms)))
  }

  function CanonicalCall(codec: Codec, tc: ToolCall, index: nat): ToolCall {
    ToolCall(Some(index), tc.id, "function", tc.name, codec.marshal(ParsedArguments(codec, tc.arguments)))
  }

  function CanonicalCalls(codec: Codec, calls: seq<ToolCall>): (r: seq<ToolCall>)
    ensures |r| == |calls|
  {
    seq(|calls|, i requires 0 <= i < |calls| => CanonicalCall(codec, calls[i], i))
  }

  /** What is left of a part: texts and pictures that are not empty, each picture as base64 data of some type. */
  function PartLeft(part: ContentPart): seq<ContentPart> {
    match part
    case TextPart(t) => if t == "" then [] else [part]
    case ImagePart(url, _) =>
      if url == "" then []
      else
        var (mime, data) := ParseDataURI(url);
        if data == "" then []
        else [ImagePart("data:" + (if mime == "" then "image/jpeg" else mime) + ";base64," + data, "")]
    case AudioPart(_, _) => []
  }

  function PartsLeft(parts: seq<ContentPart>): seq<ContentPart> {
    if parts == [] then [] else PartsLeft(parts[..|parts| - 1]) + PartLeft(parts[|parts| - 1])
  }

  function TextsLeft(parts: seq<ContentPart>): seq<string> {
    if parts == [] then []
    else
      var last := parts[|parts| - 1];
      TextsLeft(parts[..|parts| - 1]) + if last.TextPart? && last.text != "" then [last.text] else []
  }

  predicate HasPicture(parts: seq<ContentPart>) {
    exists i :: 0 <= i < |parts| && parts[i].ImagePart? && parts[i].url != ""
  }

  /** The content of a message that is neither an answer nor a call, as it comes back. */
  function ContentLeft(codec: Codec, content: Content): Content {
    var parts := ParsedContent(codec, content);
    if !HasImage(parts) then Value(Str(ContentString(codec, content)))
    else if HasPicture(parts) then Parts(PartsLeft(parts))
    else Value(Str(Join(TextsLeft(parts), "\n")))
  }

  /** A message in the form both directions agree on. */
  function Canon(codec: Codec, m: ChatMessage): ChatMessage {
    var content := Value(Str(ContentString(codec, m.content)));
    if IsTool(m) then ChatMessage("tool", content, "", "", [], m.toolCallId)
    else if IsCalling(m) then ChatMessage("assistant", content, "", "", CanonicalCalls(codec, m.toolCalls), "")
    else Plain(m.role, ContentLeft(codec, m.content))
  }

  /** A message that a tool's answer right behind it would be merged into. */
  predicate IsOpenUser(m: ChatMessage) {
    m.role == "user"
  }

  predicate ToolIsNext(ms: seq<ChatMessage>)
    decreases |ms|
  {
    ms != [] && (if IsSystem(ms[0]) then ToolIsNext(ms[1..]) else IsTool(ms[0]))
  }

  /** The messages that come back: all but system ones and user messages right before a tool's answer. */
  function Survivors(ms: seq<ChatMessage>): seq<ChatMessage> {
    if ms == [] then []
    else if IsSystem(ms[0]) || (IsOpenUser(ms[0]) && ToolIsNext(ms[1..])) then Survivors(ms[1..])
    else [ms[0]] + Survivors(ms[1..])
  }

  function CanonAll(codec: Codec, ms: seq<ChatMessage>): (r: seq<ChatMessage>)
    ensures |r| == |ms|
  {
    seq(|ms|, i requires 0 <= i < |ms| => Canon(codec, ms[i]))
  }

  // ---- One message there and back ----

  lemma ScanCall(codec: Codec, s: Scan, tc: ToolCall)
    ensures Scanned(codec, s, CallBlock(tc.id, tc.name, ParsedArguments(codec, tc.arguments)))
         == s.(calls := s.calls + [CanonicalCall(codec, tc, |s.calls|)])
  {
    hide ParsedArguments;
  }

  lemma {:induction false} ScanCalls(codec: Codec, before: seq<Json>, calls: seq<ToolCall>)
    requires ScannedAll(codec, before).calls == []
    ensures ScannedAll(codec, before + CallBlocks(codec, calls))
         == ScannedAll(codec, before).(calls := CanonicalCalls(codec, calls))
    decreases |calls|
  {
    hide Scanned, CanonicalCall, CallBlock, ParsedArguments;
    var all := before + CallBlocks(codec, calls);
    if calls == [] {
      assert all == before;
      assert CanonicalCalls(codec, calls) == [];
    } else {
      var n := |calls| - 1;
      var tc := calls[n];
      ScanCalls(codec, before, calls[..n]);
      ScanCall(codec, ScannedAll(codec, before + CallBlocks(codec, calls[..n])), tc);
      assert all[..|all| - 1] == before + CallBlocks(codec, calls[..n]);
      assert all[|all| - 1] == CallBlock(tc.id, tc.name, ParsedArguments(codec, tc.arguments));
      assert CanonicalCalls(codec, calls) == CanonicalCalls(codec, calls[..n]) + [CanonicalCall(codec, tc, n)];
    }
  }

  lemma ScanHead(codec: Codec, t: string)
    ensures ScannedAll(codec, []) == NO_SCAN
    ensures ScannedAll(codec, [TextBlock(t)]) == NO_SCAN.(texts := [t], parts := [TextPart(t)])
  {
    assert [TextBlock(t)][..0] == [];
  }

  lemma CallingComesBack(codec: Codec, m: ChatMessage)
    requires IsCalling(m) && !IsTool(m)
    ensures Received(codec, OnWire(Turn(codec, m))) == [Canon(codec, m)]
  {
    hide Lower, ContentString;
    var t := ContentString(codec, m.content);
    var head := if t != "" then [TextBlock(t)] else [];
    ScanHead(codec, t);
    ScanCalls(codec, head, m.toolCalls);
    assert Join([t], "\n") == t && Join([], "\n") == "";
  }

  lemma OnePartScanned(codec: Codec, s: Scan, part: ContentPart)
    ensures var blocks := PartBlocks(part);
            && |blocks| <= 1
            && (blocks == [] ==> PartLeft(part) == [] && !(part.ImagePart? && part.url != "") && (part.TextPart? ==> part.text == ""))
            && (blocks != [] ==> (part.ImagePart? ==> part.url != "") && (part.TextPart? ==> part.text != ""))
            && (blocks != [] ==> Scanned(codec, s, blocks[0]) == s.(
                  texts := s.texts + (if part.TextPart? then [part.text] else []),
                  parts := s.parts + PartLeft(part), hasImage := s.hasImage || part.ImagePart?))
  {
    hide ParseDataURI;
  }

  lemma HasPictureSnoc(parts: seq<ContentPart>)
    requires parts != []
    ensures var last := parts[|parts| - 1];
            HasPicture(parts) <==> HasPicture(parts[..|parts| - 1]) || (last.ImagePart? && last.url != "")
  {
    var front := parts[..|parts| - 1];
    if HasPicture(parts) {
      var i :| 0 <= i < |parts| && parts[i].ImagePart? && parts[i].url != "";
      assert i < |front| ==> front[i] == parts[i];
    }
    if HasPicture(front) {
      var i :| 0 <= i < |front| && front[i].ImagePart? && front[i].url != "";
      assert parts[i] == front[i];
    }
  }

  lemma ScannedSnoc(codec: Codec, before: seq<Json>, block: seq<Json>)
    requires |block| <= 1
    ensures ScannedAll(codec, before + block)
         == if block == [] then ScannedAll(codec, before) else Scanned(codec, ScannedAll(codec, before), block[0])
  {
    hide Scanned;
    if block == [] {
      assert before + block == before;
    } else {
      assert (before + block)[..|before + block| - 1] == before;
    }
  }

  predicate Reads(codec: Codec, parts: seq<ContentPart>, blocks: seq<Json>) {
    ScannedAll(codec, blocks) == Scan(TextsLeft(parts), [], [], PartsLeft(parts), HasPicture(parts), false)
  }

  lemma OneMorePart(codec: Codec, parts: seq<ContentPart>, blocks: seq<Json>)
    requires parts != [] && Reads(codec, parts[..|parts| - 1], blocks)
    ensures Reads(codec, parts, blocks + PartBlocks(parts[|parts| - 1]))
  {
    hide Scanned, PartBlocks, PartLeft, HasPicture, ScannedAll;
    var last := parts[|parts| - 1];
    HasPictureSnoc(parts);
    OnePartScanned(codec, ScannedAll(codec, blocks), last);
    ScannedSnoc(codec, blocks, PartBlocks(last));
  }

  /** The blocks of a message with pictures, read back: its texts, its parts, and no answer among them. */
  lemma {:induction false} MediaScanned(codec: Codec, parts: seq<ContentPart>)
    ensures Reads(codec, parts, MediaBlocks(parts))
  {
    if parts == [] {
      ScanHead(codec, "");
    } else {
      hide Reads;
      MediaScanned(codec, parts[..|parts| - 1]);
      OneMorePart(codec, parts, MediaBlocks(parts[..|parts| - 1]));
    }
  }

  lemma TurnComesBack(codec: Codec, m: ChatMessage)
    requires !IsSystem(m) && !IsTool(m)
    ensures Received(codec, OnWire(Turn(codec, m))) == [Canon(codec, m)]
  {
    if IsCalling(m) {
      CallingComesBack(codec, m);
    } else {
      hide MediaBlocks, ScannedAll, HasImage, HasPicture, PartsLeft, TextsLeft, ParsedContent, Lower, Join;
      MediaScanned(codec, ParsedContent(codec, m.content));
    }
  }

  // ---- A whole conversation ----

  lemma ReceivedSnoc(codec: Codec, out: seq<SentMessage>, m: SentMessage)
    ensures ReceivedAll(codec, AllOnWire(out + [m])) == ReceivedAll(codec, AllOnWire(out)) + Received(codec, OnWire(m))
  {
    hide Received;
    var w := AllOnWire(out + [m]);
    assert w[..|w| - 1] == AllOnWire(out);
  }

  /** The blocks an answer is put behind: those of the open user message, if there is one. */
  function OpenBlocks(out: seq<SentMessage>): seq<Json> {
    if out == [] || out[|out| - 1].role != "user" then []
    else match out[|out| - 1].content case Blocks(bs) => bs case Words(t) => [TextBlock(t)]
  }

  function BeforeOpen(out: seq<SentMessage>): seq<SentMessage> {
    if out == [] || out[|out| - 1].role != "user" then out else out[..|out| - 1]
  }

  /** What comes back of `out`: when a tool's answer follows, only earlier answers of the open user message do. */
  function Kept(codec: Codec, out: seq<SentMessage>, toolNext: bool): seq<ChatMessage> {
    if toolNext then ReceivedAll(codec, AllOnWire(BeforeOpen(out))) + ScannedAll(codec, OpenBlocks(out)).results
    else ReceivedAll(codec, AllOnWire(out))
  }

  lemma ScanOneResult(codec: Codec, s: Scan, m: ChatMessage)
    requires IsTool(m)
    ensures Scanned(codec, s, ResultBlock(m.toolCallId, ContentString(codec, m.content)))
         == s.(hasResult := true, results := s.results + [Canon(codec, m)])
  {
    hide ContentString, Lower;
  }

  lemma ScanResult(codec: Codec, blocks: seq<Json>, m: ChatMessage)
    requires IsTool(m)
    ensures ScannedAll(codec, blocks + [ResultBlock(m.toolCallId, ContentString(codec, m.content))])
         == ScannedAll(codec, blocks).(hasResult := true, results := ScannedAll(codec, blocks).results + [Canon(codec, m)])
  {
    hide ContentString, Lower, Scanned, ResultBlock, Canon;
    var all := blocks + [ResultBlock(m.toolCallId, ContentString(codec, m.content))];
    assert all[..|all| - 1] == blocks;
    ScanOneResult(codec, ScannedAll(codec, blocks), m);
  }

  lemma AnswersComeBack(codec: Codec, blocks: seq<Json>)
    requires ScannedAll(codec, blocks).hasResult
    ensures Received(codec, OnWire(SentMessage("user", Blocks(blocks)))) == ScannedAll(codec, blocks).results
  {
    hide ScannedAll;
  }

  /** A user message whose blocks end with the answer comes back as the answers of the blocks before and this one. */
  lemma BlocksComeBack(codec: Codec, front: seq<SentMessage>, bs: seq<Json>, m: ChatMessage)
    requires IsTool(m)
    ensures var sent := SentMessage("user", Blocks(bs + [ResultBlock(m.toolCallId, ContentString(codec, m.content))]));
            && ScannedAll(codec, sent.content.blocks).hasResult
            && ReceivedAll(codec, AllOnWire(front + [sent]))
            == ReceivedAll(codec, AllOnWire(front)) + (ScannedAll(codec, bs).results + [Canon(codec, m)])
  {
    hide Lower, Canon, ResultBlock, ContentString, ReceivedAll, AllOnWire, ScannedAll, Received;
    var all := bs + [ResultBlock(m.toolCallId, ContentString(codec, m.content))];
    ScanResult(codec, bs, m);
    AnswersComeBack(codec, all);
    ReceivedSnoc(codec, front, SentMessage("user", Blocks(all)));
  }

  lemma ResultIsAppended(out: seq<SentMessage>, block: Json)
    ensures WithResult(out, block) == BeforeOpen(out) + [SentMessage("user", Blocks(OpenBlocks(out) + [block]))]
  {
    assert [] + [block] == [block];
  }

  lemma ResultComesBack(codec: Codec, out: seq<SentMessage>, m: ChatMessage, toolNext: bool)
    requires IsTool(m) && !IsSystem(m)
    ensures Kept(codec, Sent(codec, out, m), toolNext) == Kept(codec, out, true) + [Canon(codec, m)]
  {
    hide IsTool, IsSystem, Canon, ResultBlock, ContentString, ReceivedAll, AllOnWire, ScannedAll, WithResult,
         BeforeOpen, OpenBlocks;
    var block := ResultBlock(m.toolCallId, ContentString(codec, m.content));
    var front, bs := BeforeOpen(out), OpenBlocks(out);
    ResultIsAppended(out, block);
    BlocksComeBack(codec, front, bs, m);
    ScanResult(codec, bs, m);
    OpenIsLast(front, bs + [block]);
  }

  lemma OpenIsLast(front: seq<SentMessage>, blocks: seq<Json>)
    ensures var out := front + [SentMessage("user", Blocks(blocks))];
            BeforeOpen(out) == front && OpenBlocks(out) == blocks
  {
  }

  /** A turn just sent holds no answers; it is open to one if it is the user's. */
  lemma TurnIsOpen(codec: Codec, out: seq<SentMessage>, m: ChatMessage)
    requires !IsSystem(m) && !IsTool(m)
    ensures var next := out + [Turn(codec, m)];
            if IsOpenUser(m) then BeforeOpen(next) == out && ScannedAll(codec, OpenBlocks(next)).results == []
            else BeforeOpen(next) == next && OpenBlocks(next) == []
  {
    hide ScannedAll, MediaBlocks, HasImage, ParsedContent, ContentString;
    assert Lower("user") == "user";
    MediaScanned(codec, ParsedContent(codec, m.content));
    ScanHead(codec, ContentString(codec, m.content));
  }

  // Each of the functions of a conversation, taken one message further.

  lemma Unfold(codec: Codec, out: seq<SentMessage>, ms: seq<ChatMessage>)
    requires ms != []
    ensures SentAll(codec, out, ms) == SentAll(codec, Sent(codec, out, ms[0]), ms[1..])
    ensures ToolIsNext(ms) == if IsSystem(ms[0]) then ToolIsNext(ms[1..]) else IsTool(ms[0])
    ensures Survivors(ms)
         == (if IsSystem(ms[0]) || (IsOpenUser(ms[0]) && ToolIsNext(ms[1..])) then [] else [ms[0]]) + Survivors(ms[1..])
  {
    hide Sent, IsSystem, IsTool;
  }

  lemma NothingToSend(codec: Codec, out: seq<SentMessage>)
    ensures SentAll(codec, out, []) == out && !ToolIsNext([]) && CanonAll(codec, Survivors([])) == []
  {
  }

  lemma CanonConcat(codec: Codec, a: seq<ChatMessage>, b: seq<ChatMessage>)
    ensures CanonAll(codec, a + b) == CanonAll(codec, a) + CanonAll(codec, b)
  {
    hide Canon;
  }

  lemma CanonOne(codec: Codec, m: ChatMessage)
    ensures CanonAll(codec, [m]) == [Canon(codec, m)] && CanonAll(codec, []) == []
  {
    hide Canon;
  }

  /** A tool's answer is kept whatever follows it. */
  lemma AnswerIsKept(codec: Codec, out: seq<SentMessage>, m: ChatMessage, toolNext: bool)
    requires IsTool(m) && !IsSystem(m)
    ensures !IsOpenUser(m)
    ensures Kept(codec, Sent(codec, out, m), toolNext) == Kept(codec, out, true) + CanonAll(codec, [m])
  {
    hide Sent, Kept, CanonAll, Canon;
    ResultComesBack(codec, out, m, toolNext);
    CanonOne(codec, m);
    assert !IsOpenUser(m) by { assert Lower("user") == "user"; }
  }

  /** Any other message is kept unless it is an open user message with an answer right behind it. */
  lemma TurnIsKept(codec: Codec, out: seq<SentMessage>, m: ChatMessage, toolNext: bool)
    requires !IsSystem(m) && !IsTool(m)
    ensures Kept(codec, Sent(codec, out, m), toolNext)
         == Kept(codec, out, false) + CanonAll(codec, if IsOpenUser(m) && toolNext then [] else [m])
  {
    hide IsSystem, IsTool, IsOpenUser, Turn, Received, ReceivedAll, AllOnWire, CanonAll, Canon, ScannedAll, BeforeOpen, OpenBlocks;
    var next := out + [Turn(codec, m)];
    assert Sent(codec, out, m) == next;
    TurnComesBack(codec, m);
    ReceivedSnoc(codec, out, Turn(codec, m));
    TurnIsOpen(codec, out, m);
    CanonOne(codec, m);
    ScanHead(codec, "");
  }

  /** Sending `ms` after `out` and reading back gives what is kept of `out` and then the survivors of `ms`. */
  predicate ComesBack(codec: Codec, out: seq<SentMessage>, ms: seq<ChatMessage>) {
    ReceivedAll(codec, AllOnWire(SentAll(codec, out, ms))) == Kept(codec, out, ToolIsNext(ms)) + CanonAll(codec, Survivors(ms))
  }

  /** The conversation comes back from `ms` if it does from the messages behind the first one. */
  lemma OneMoreComesBack(codec: Codec, out: seq<SentMessage>, ms: seq<ChatMessage>)
    requires ms != [] && ComesBack(codec, Sent(codec, out, ms[0]), ms[1..])
    ensures ComesBack(codec, out, ms)
  {
    hide IsSystem, IsTool, IsOpenUser, SentAll, ToolIsNext, Survivors, CanonAll,
         Canon, Kept, ReceivedAll, AllOnWire, WithResult, Turn;
    var m, rest := ms[0], ms[1..];
    Unfold(codec, out, ms);
    var head := if IsSystem(m) || (IsOpenUser(m) && ToolIsNext(rest)) then [] else [m];
    CanonConcat(codec, head, Survivors(rest));
    CanonOne(codec, m);
    if IsSystem(m) {
      assert Sent(codec, out, m) == out;
    } else if IsTool(m) {
      AnswerIsKept(codec, out, m, ToolIsNext(rest));
    } else {
      TurnIsKept(codec, out, m, ToolIsNext(rest));
    }
  }

  lemma {:induction false} ConversationComesBack(codec: Codec, out: seq<SentMessage>, ms: seq<ChatMessage>)
    ensures ComesBack(codec, out, ms)
    decreases |ms|
  {
    hide Sent, SentAll, ToolIsNext, Survivors, CanonAll, ReceivedAll, AllOnWire;
    if ms == [] {
      NothingToSend(codec, out);
    } else {
      hide ComesBack;
      ConversationComesBack(codec, Sent(codec, out, ms[0]), ms[1..]);
      OneMoreComesBack(codec, out, ms);
    }
  }

  /** Nothing has been sent yet. */
  lemma NothingKept(codec: Codec, toolNext: bool)
    ensures Kept(codec, [], toolNext) == []
  {
    assert AllOnWire([]) == [];
    ScanHead(codec, "");
  }

  /** Every conversation: what comes back is its surviving messages behind one system message. */
  lemma SurvivorsComeBack(codec: Codec, ms: seq<ChatMessage>)
    ensures Returned(codec, ms)
         == SystemMessage(Join(SystemParts(codec, ms), "\n\n")) + CanonAll(codec, Survivors(ms))
  {
    hide SentAll, ToolIsNext, Survivors, CanonAll, Kept, ReceivedAll, AllOnWire, SystemMessage, SystemParts, Join;
    NothingKept(codec, ToolIsNext(ms));
    ConversationComesBack(codec, [], ms);
    assert [] + CanonAll(codec, Survivors(ms)) == CanonAll(codec, Survivors(ms));
  }

  /** No user message stands right before a tool's answer, system messages not counted. */
  predicate AnswersFollowCalls(ms: seq<ChatMessage>) {
    ms == [] ||
    (AnswersFollowCalls(ms[1..]) && !(!IsSystem(ms[0]) && IsOpenUser(ms[0]) && ToolIsNext(ms[1..])))
  }

  function WithoutSystem(ms: seq<ChatMessage>): seq<ChatMessage> {
    if ms == [] then []
    else if IsSystem(ms[0]) then WithoutSystem(ms[1..])
    else [ms[0]] + WithoutSystem(ms[1..])
  }

  lemma {:induction false} AllSurviveExactlyWhen(ms: seq<ChatMessage>)
    ensures |Survivors(ms)| <= |WithoutSystem(ms)|
    ensures AnswersFollowCalls(ms) ==> Survivors(ms) == WithoutSystem(ms)
    ensures |Survivors(ms)| == |WithoutSystem(ms)| ==> AnswersFollowCalls(ms)
  {
    if ms != [] {
      AllSurviveExactlyWhen(ms[1..]);
    }
  }

  /**
   * A conversation, with pictures or without, comes back whole behind its joined system text
   * if and only if no user message stands right before a tool's answer.
   */
  lemma ComesBackWholeIff(codec: Codec, ms: seq<ChatMessage>)
    ensures Returned(codec, ms)
         == SystemMessage(Join(SystemParts(codec, ms), "\n\n")) + CanonAll(codec, WithoutSystem(ms))
       <==> AnswersFollowCalls(ms)
  {
    hide Canon, SystemMessage;
    SurvivorsComeBack(codec, ms);
    AllSurviveExactlyWhen(ms);
    var head := SystemMessage(Join(SystemParts(codec, ms), "\n\n"));
    assert |head + CanonAll(codec, Survivors(ms))| == |head| + |Survivors(ms)|;
    assert |head + CanonAll(codec, WithoutSystem(ms))| == |head| + |WithoutSystem(ms)|;
  }

  // ---- Canonical conversations come back unchanged ----

  /** Tool calls as the translator itself would write them. */
  predicate CanonicalToolCalls(codec: Codec, calls: seq<ToolCall>) {
    forall i :: 0 <= i < |calls| ==>
      && calls[i].index == Some(i) && calls[i].kind == "function"
      && codec.unmarshal(calls[i].arguments).Some?
      && codec.marshal(codec.unmarshal(calls[i].arguments).value) == calls[i].arguments
  }

  predicate CanonicalMessage(codec: Codec, m: ChatMessage) {
    && m.content.Value? && m.content.json.Str?
    && m.reasoning == "" && m.name == ""
    && (m.role == "assistant" || m.toolCalls == [])
    && (m.role == "tool" || m.toolCallId == "")
    && (Lower(m.role) == m.role)
    && CanonicalToolCalls(codec, m.toolCalls)
  }

  /** At most one system message, in front and not empty; answers only after calls or other answers. */
  predicate CanonicalConversation(codec: Codec, ms: seq<ChatMessage>) {
    && (forall i :: 0 <= i < |ms| ==> CanonicalMessage(codec, ms[i]))
    && (forall i :: 0 < i < |ms| ==> ms[i].role != "system")
    && (ms != [] && ms[0].role == "system" ==> ms[0].content.json.s != "")
    && (forall i :: 0 < i < |ms| && ms[i].role == "tool" ==> ms[i - 1].role == "tool" || IsCalling(ms[i - 1]))
  }

  lemma CanonicalIsFixed(codec: Codec, m: ChatMessage)
    requires CanonicalMessage(codec, m)
    ensures Canon(codec, m) == m && !HasImage(ParsedContent(codec, m.content))
  {
    assert CanonicalCalls(codec, m.toolCalls) == m.toolCalls;
  }

  lemma {:induction false} NoSystemInside(codec: Codec, ms: seq<ChatMessage>)
    requires CanonicalConversation(codec, ms) && (ms != [] ==> ms[0].role != "system")
    ensures SystemParts(codec, ms) == [] && WithoutSystem(ms) == ms && AnswersFollowCalls(ms)
  {
    if ms != [] {
      hide CanonicalMessage, Lower, ContentString;
      var m := ms[0];
      assert Lower(m.role) == m.role by { CanonicalRole(codec, m); }
      NoSystemInside(codec, ms[1..]);
      if m.role == "user" {
        NoAnswerAfterUser(codec, ms);
      }
    }
  }

  lemma CanonicalRole(codec: Codec, m: ChatMessage)
    requires CanonicalMessage(codec, m)
    ensures Lower(m.role) == m.role
  {
  }

  lemma NoAnswerAfterUser(codec: Codec, ms: seq<ChatMessage>)
    requires CanonicalConversation(codec, ms) && ms != [] && ms[0].role == "user"
    ensures !ToolIsNext(ms[1..])
  {
    hide Lower, CanonicalMessage;
    assert Lower("user") == "user" by { UserIsLower(); }
    if |ms| > 1 {
      CanonicalRole(codec, ms[1]);
      assert !IsSystem(ms[1]);
    }
  }

  lemma UserIsLower()
    ensures Lower("user") == "user"
  {
  }

  /** A canonical conversation is returned message for message: texts, tool ids, names and arguments in order. */
  lemma CanonicalConversationsComeBack(codec: Codec, ms: seq<ChatMessage>)
    requires CanonicalConversation(codec, ms)
    ensures Returned(codec, ms) == ms
  {
    hide Canon, CanonicalMessage, HasImage, ParsedContent, Returned, SystemMessage, SystemParts, WithoutSystem, AnswersFollowCalls, Join;
    forall i | 0 <= i < |ms| ensures Canon(codec, ms[i]) == ms[i] && !HasImage(ParsedContent(codec, ms[i].content)) {
      CanonicalIsFixed(codec, ms[i]);
    }
    ComesBackWholeIff(codec, ms);
    if ms != [] && ms[0].role == "system" {
      var rest := ms[1..];
      NoSystemInside(codec, rest);
      SystemInFront(codec, ms);
      assert CanonAll(codec, rest) == rest;
    } else {
      NoSystemInside(codec, ms);
      NoSystemMessage();
      assert CanonAll(codec, ms) == ms;
    }
  }

  lemma NoSystemMessage()
    ensures SystemMessage(Join([], "\n\n")) == []
  {
  }

  lemma SystemInFront(codec: Codec, ms: seq<ChatMessage>)
    requires ms != [] && ms[0].role == "system" && CanonicalMessage(codec, ms[0])
    requires SystemParts(codec, ms[1..]) == [] && ms[0].content.json.s != ""
    ensures SystemMessage(Join(SystemParts(codec, ms), "\n\n")) == [ms[0]]
    ensures WithoutSystem(ms) == WithoutSystem(ms[1..])
    ensures AnswersFollowCalls(ms) == AnswersFollowCalls(ms[1..])
  {
    assert SystemParts(codec, ms) == [ms[0].content.json.s];
  }

  // ---- Pictures ----

  /** The mark that separates a type from its data does not begin inside the type. */
  predicate NoMarkIn(mime: string) {
    forall k :: 0 <= k < |mime| ==> !(";base64," <= (mime + ";base64,")[k..])
  }

  lemma {:induction false} MarkIsFound(mime: string, data: string)
    requires NoMarkIn(mime)
    ensures IndexOf(mime + ";base64," + data, ";base64,") == |mime|
  {
    var s := mime + ";base64," + data;
    if mime == "" {
      assert ";base64," <= s;
    } else {
      assert !(";base64," <= (mime + ";base64,")[0..]);
      assert |mime + ";base64,"| > |";base64,"|;
      assert s[..|";base64,"|] == (mime + ";base64,")[0..][..|";base64,"|];
      var rest := mime[1..];
      assert s[1..] == rest + ";base64," + data;
      forall k | 0 <= k < |rest| ensures !(";base64," <= (rest + ";base64,")[k..]) {
        assert (rest + ";base64,")[k..] == (mime + ";base64,")[k + 1..];
      }
      MarkIsFound(rest, data);
    }
  }

  lemma DataIsRead(mime: string, data: string)
    requires NoMarkIn(mime)
    ensures ParseDataURI("data:" + mime + ";base64," + data) == (mime, data)
  {
    var url := "data:" + mime + ";base64," + data;
    var body := mime + ";base64," + data;
    assert "data:" <= url && url[5..] == body;
    MarkIsFound(mime, data);
    assert |BASE64_MARK| == 8 && body[..|mime|] == mime && body[|mime| + 8..] == data;
  }

  /** A picture sent as data comes back as it was. */
  lemma PicturesComeBack(mime: string, data: string, detail: string)
    requires mime != "" && data != "" && NoMarkIn(mime)
    ensures var url := "data:" + mime + ";base64," + data;
            PartLeft(ImagePart(url, detail)) == [ImagePart(url, "")]
  {
    DataIsRead(mime, data);
    hide ParseDataURI;
    var url := "data:" + mime + ";base64," + data;
    assert url[0] == 'd';
  }

  /** Any other address comes back as if it were the data of a JPEG. */
  lemma AddressesComeBackAsData(url: string, detail: string)
    requires url != "" && !("data:" <= url)
    ensures PartLeft(ImagePart(url, detail)) == [ImagePart("data:image/jpeg;base64," + url, "")]
  {
    assert "data:" + "image/jpeg" + ";base64," + url == "data:image/jpeg;base64," + url;
  }

  // ---- What a turn looks like on the wire ----

  /** A block Anthropic takes in a turn: text that is not empty, a picture as base64 data of some type, or a tool call. */
  predicate ProperBlock(b: Json) {
    && b.Obj? && "type" in b.fields
    && (|| (b.fields.Keys == {"type", "text"} && b.fields["type"] == Str("text") && b.fields["text"].Str? && b.fields["text"].s != "")
        || (&& b.fields.Keys == {"type", "source"} && b.fields["type"] == Str("image") && b.fields["source"].Obj?
            && var source := b.fields["source"].fields;
               && source.Keys == {"type", "media_type", "data"} && source["type"] == Str("base64")
               && source["media_type"].Str? && source["media_type"].s != "" && source["data"].Str?)
        || (&& b.fields.Keys == {"type", "id", "name", "input"} && b.fields["type"] == Str("tool_use")
            && b.fields["id"].Str? && b.fields["name"].Str?))
  }

  predicate ProperBlocks(bs: seq<Json>) { forall i :: 0 <= i < |bs| ==> ProperBlock(bs[i]) }

  lemma TextIsProper(t: string)
    requires t != ""
    ensures ProperBlock(TextBlock(t))
  {
  }

  lemma PictureIsProper(mime: string, data: string)
    requires mime != ""
    ensures ProperBlock(ImageBlock(mime, data))
  {
    assert ImageBlock(mime, data).fields.Keys == {"type", "source"};
  }

  lemma CallIsProper(id: string, name: string, input: Json)
    ensures ProperBlock(CallBlock(id, name, input))
  {
    assert CallBlock(id, name, input).fields.Keys == {"type", "id", "name", "input"};
  }

  lemma {:induction false} MediaAreProper(parts: seq<ContentPart>)
    ensures ProperBlocks(MediaBlocks(parts))
  {
    hide ProperBlock, TextBlock, ImageBlock, ParseDataURI;
    if parts != [] {
      MediaAreProper(parts[..|parts| - 1]);
      match parts[|parts| - 1]
      case TextPart(t) => if t != "" { TextIsProper(t); }
      case ImagePart(url, _) =>
        var (mime, data) := ParseDataURI(url);
        PictureIsProper(if mime == "" then "image/jpeg" else mime, data);
      case AudioPart(_, _) =>
    }
  }

  /** Every turn but an answer is a string or proper blocks, under the role it came with. */
  lemma TurnsAreProper(codec: Codec, m: ChatMessage)
    ensures Turn(codec, m).content.Blocks? ==> ProperBlocks(Turn(codec, m).content.blocks)
    ensures Turn(codec, m).role == if IsCalling(m) then "assistant" else m.role
  {
    hide ProperBlock, TextBlock, CallBlock, ContentString, ParsedContent, MediaBlocks, HasImage, Lower;
    MediaAreProper(ParsedContent(codec, m.content));
    var t := ContentString(codec, m.content);
    if t != "" {
      TextIsProper(t);
    }
    forall i | 0 <= i < |m.toolCalls| ensures ProperBlock(CallBlocks(codec, m.toolCalls)[i]) {
      CallIsProper(m.toolCalls[i].id, m.toolCalls[i].name, ParsedArguments(codec, m.toolCalls[i].arguments));
    }
  }

  /** An answer with a list for its content says the texts of the list's items; one with neither text nor list says nothing. */
  lemma AnswersSayTheirTexts(items: seq<Json>, text: string, other: Json)
    ensures ResultText(Str(text)) == text && ResultText(Arr([])) == ""
    ensures ResultText(Arr(items + [Obj(map["text" := Str(text)])])) == ResultText(Arr(items)) + text
    ensures !other.Str? && !other.Arr? ==> ResultText(other) == "" && ResultText(Arr(items + [Null])) == ResultText(Arr(items))
  {
    var item := Obj(map["text" := Str(text)]);
    assert (items + [item])[..|items|] == items && (items + [Null])[..|items|] == items;
  }
}
