/** What the client can rely on in the emitted events. */
module StreamRuns {
  import opened Common
  import opened StreamEmitting

  // ---- What the upstream said, as a list of operations ----

  datatype Op =
    | Say(text: string)
    | Start(id: string, name: string, tool: Option<nat>)
    | Args(text: string, tool: Option<nat>)

  predicate Terminal(a: Arrival) {
    match a case Next(e) => e.err.Some? case _ => true
  }

  function OpsOfCall(tc: ToolDelta): seq<Op> {
    (if tc.id != "" && tc.name != "" then [Start(tc.id, tc.name, tc.index)] else [])
    + if tc.arguments != "" then [Args(tc.arguments, tc.index)] else []
  }

  function OpsOfCalls(tcs: seq<ToolDelta>): seq<Op> {
    if tcs == [] then [] else OpsOfCalls(tcs[..|tcs| - 1]) + OpsOfCall(tcs[|tcs| - 1])
  }

  function OpsOfEvent(e: Event): seq<Op> {
    if e.isDone || e.chunk.None? || e.chunk.value.choices == [] then []
    else
      var choice := e.chunk.value.choices[0];
      (if choice.content != "" then [Say(choice.content)] else []) + OpsOfCalls(choice.toolCalls)
  }

  /** The operations that arrive before the stream ends. */
  function Ops(arrivals: seq<Arrival>): seq<Op> {
    if arrivals == [] || Terminal(arrivals[0]) then []
    else OpsOfEvent(arrivals[0].event) + Ops(arrivals[1..])
  }

  /** How the stream ended, if it did. */
  function EndOf(arrivals: seq<Arrival>): Option<Arrival> {
    if arrivals == [] then None
    else if Terminal(arrivals[0]) then Some(arrivals[0])
    else EndOf(arrivals[1..])
  }

  function CountStarts(ops: seq<Op>): nat {
    if ops == [] then 0 else (if ops[0].Start? then 1 else 0) + CountStarts(ops[1..])
  }

  function ToldOp(n: nat, op: Op): seq<Sse> {
    match op
    case Say(t) => [TextDelta(0, t)]
    case Args(t, _) => [JsonDelta(n, t)]
    case Start(id, name, _) => [BlockStop(n), BlockStart(n + 1, ToolBlock(id, name))]
  }

  /** The events of the operations, block `n` being the last one started. */
  function Told(n: nat, ops: seq<Op>): seq<Sse>
    decreases |ops|
  {
    if ops == [] then []
    else ToldOp(n, ops[0]) + Told(if ops[0].Start? then n + 1 else n, ops[1..])
  }

  function Ending(s: State, end: Option<Arrival>): seq<Sse> {
    match end
    case Some(Close) => [BlockStop(s.index), MessageDelta(s.stopReason, s.completion), MessageStop]
    case Some(Next(e)) => (match e.err case Some(m) => [StreamError(m)] case None => [])
    case _ => []
  }

  lemma {:induction false} ToldConcat(n: nat, a: seq<Op>, b: seq<Op>)
    ensures CountStarts(a + b) == CountStarts(a) + CountStarts(b)
    ensures Told(n, a + b) == Told(n, a) + Told(n + CountStarts(a), b)
    decreases |a|
  {
    hide ToldOp;
    if a == [] {
      assert a + b == b;
    } else {
      assert (a + b)[1..] == a[1..] + b;
      ToldConcat(if a[0].Start? then n + 1 else n, a[1..], b);
    }
  }

  /** The text block is open exactly until the first tool starts; from then on a tool block is. */
  predicate OneOpen(s: State) {
    !s.ended && s.textOpen == (s.index == 0) && s.toolOpen == (s.index > 0)
  }

  /** `t` says what `s` said and then `ops`. */
  predicate SaysMore(s: State, t: State, ops: seq<Op>) {
    && OneOpen(t) && t.audits == s.audits
    && t.index == s.index + CountStarts(ops) && t.out == s.out + Told(s.index, ops)
  }

  lemma SaysMoreTwice(s: State, t: State, u: State, a: seq<Op>, b: seq<Op>)
    requires SaysMore(s, t, a) && SaysMore(t, u, b)
    ensures SaysMore(s, u, a + b)
  {
    hide Told, CountStarts;
    ToldConcat(s.index, a, b);
  }

  lemma ToldOne(n: nat, op: Op)
    ensures CountStarts([op]) == if op.Start? then 1 else 0
    ensures Told(n, [op]) == ToldOp(n, op)
  {
    assert [op][1..] == [];
    assert Told(n, []) == [] && Told(n + 1, []) == [];
  }

  lemma CallSaysMore(s: State, tc: ToolDelta)
    requires OneOpen(s)
    ensures SaysMore(s, AddArguments(StartTool(s, tc), tc), OpsOfCall(tc))
  {
    hide Told, CountStarts;
    var t := StartTool(s, tc);
    var a := if tc.id != "" && tc.name != "" then [Start(tc.id, tc.name, tc.index)] else [];
    var b := if tc.arguments != "" then [Args(tc.arguments, tc.index)] else [];
    ToldNothing(s.index);
    ToldNothing(t.index);
    ToldOne(s.index, Start(tc.id, tc.name, tc.index));
    ToldOne(t.index, Args(tc.arguments, tc.index));
    assert SaysMore(s, t, a);
    SaysMoreTwice(s, t, AddArguments(t, tc), a, b);
  }

  lemma ToldNothing(n: nat)
    ensures Told(n, []) == [] && CountStarts([]) == 0
  {
  }

  lemma {:induction false} CallsSayMore(s: State, tcs: seq<ToolDelta>)
    requires OneOpen(s)
    ensures SaysMore(s, OnToolCalls(s, tcs), OpsOfCalls(tcs))
  {
    hide Told, CountStarts, OpsOfCall, StartTool, AddArguments;
    if tcs == [] {
      ToldNothing(s.index);
    } else {
      var front, last := tcs[..|tcs| - 1], tcs[|tcs| - 1];
      CallsSayMore(s, front);
      var t := OnToolCalls(s, front);
      CallSaysMore(t, last);
      SaysMoreTwice(s, t, AddArguments(StartTool(t, last), last), OpsOfCalls(front), OpsOfCall(last));
    }
  }

  lemma TextSaysMore(s: State, text: string)
    requires OneOpen(s)
    ensures SaysMore(s, OnText(s, text), if text != "" then [Say(text)] else [])
  {
    hide Told, CountStarts;
    ToldNothing(s.index);
    ToldOne(s.index, Say(text));
  }

  lemma FinishSaysNothing(s: State, reason: Option<string>)
    requires OneOpen(s)
    ensures SaysMore(s, OnFinish(s, reason), [])
  {
    ToldNothing(s.index);
  }

  lemma UsageSaysNothing(s: State, t: State, ops: seq<Op>, usage: Option<Usage>)
    requires SaysMore(s, t, ops)
    ensures SaysMore(s, OnUsage(t, usage), ops)
  {
    hide Told, CountStarts;
  }

  lemma NamesSayNothing(s: State, t: State)
    requires OneOpen(s) && t == s.(channel := t.channel, chatId := t.chatId)
    ensures SaysMore(s, t, []) && OneOpen(t)
  {
    ToldNothing(s.index);
  }

  lemma ChunkSaysMore(s: State, c: Chunk)
    requires OneOpen(s) && c.choices != []
    ensures SaysMore(s, OnChunk(s, c),
              (if c.choices[0].content != "" then [Say(c.choices[0].content)] else []) + OpsOfCalls(c.choices[0].toolCalls))
  {
    hide SaysMore, OneOpen, OnToolCalls, OpsOfCalls, OnText, OnFinish, OnUsage;
    var choice := c.choices[0];
    var t := if c.id != "" && s.chatId == "" then s.(chatId := c.id) else s;
    var u := OnFinish(t, choice.finishReason);
    var v := OnText(u, choice.content);
    var w := OnToolCalls(v, choice.toolCalls);
    var said := if choice.content != "" then [Say(choice.content)] else [];
    NamesSayNothing(s, t);
    FinishSaysNothing(t, choice.finishReason);
    SaysMoreTwice(s, t, u, [], []);
    SaysMoreIsOpen(s, u, [] + []);
    TextSaysMore(u, choice.content);
    SaysMoreTwice(s, u, v, [] + [], said);
    SaysMoreIsOpen(u, v, said);
    CallsSayMore(v, choice.toolCalls);
    SaysMoreTwice(s, v, w, ([] + []) + said, OpsOfCalls(choice.toolCalls));
    assert ([] + []) + said == said;
    UsageSaysNothing(s, w, said + OpsOfCalls(choice.toolCalls), c.usage);
  }

  lemma SaysMoreIsOpen(s: State, t: State, ops: seq<Op>)
    requires SaysMore(s, t, ops)
    ensures OneOpen(t)
  {
  }

  lemma EventSaysMore(s: State, e: Event)
    requires OneOpen(s) && e.err.None?
    ensures SaysMore(s, OnEvent(s, e), OpsOfEvent(e))
  {
    hide SaysMore, OneOpen, OnChunk, OpsOfCalls;
    var t := if s.channel == "" then s.(channel := e.channel) else s;
    NamesSayNothing(s, t);
    if !e.isDone && e.chunk.Some? {
      if e.chunk.value.choices == [] {
        ChunkWithoutChoice(t, e.chunk.value);
        NamesSayNothing(s, OnChunk(t, e.chunk.value));
      } else {
        ChunkSaysMore(t, e.chunk.value);
        SaysMoreTwice(s, t, OnChunk(t, e.chunk.value), [], OpsOfEvent(e));
        assert [] + OpsOfEvent(e) == OpsOfEvent(e);
      }
    }
  }

  lemma ChunkWithoutChoice(s: State, c: Chunk)
    requires c.choices == []
    ensures OnChunk(s, c) == s.(chatId := OnChunk(s, c).chatId)
  {
  }

  /** What the client gets: the head, the operations in order, and the ending; one audit once it has ended. */
  lemma {:induction false} RunTells(s: State, arrivals: seq<Arrival>) returns (last: State)
    requires OneOpen(s)
    ensures SaysMore(s, last, Ops(arrivals))
    ensures var r := Emitted(s, arrivals);
            && r.out == last.out + Ending(last, EndOf(arrivals))
            && r.ended == EndOf(arrivals).Some?
            && r.index == last.index
            && |r.audits| == |s.audits| + if r.ended then 1 else 0
    decreases |arrivals|
  {
    hide Told, CountStarts, OnChunk, OpsOfEvent;
    ToldNothing(s.index);
    last := s;
    if arrivals != [] {
      var a := arrivals[0];
      var t := OnArrival(s, a);
      if Terminal(a) {
        if a.Next? {
          last := if s.channel == "" then s.(channel := a.event.channel) else s;
        }
        assert Emitted(t, arrivals[1..]) == t;
      } else {
        EventSaysMore(s, a.event);
        last := RunTells(t, arrivals[1..]);
        SaysMoreTwice(s, t, last, OpsOfEvent(a.event), Ops(arrivals[1..]));
      }
    }
  }

  // ---- A reader of the protocol, written from its rules ----

  datatype Reader =
    | Fresh
    | Between(next: nat)
    | Open(index: nat, tool: bool)
    | Closing
    | Done
    | Broken

  /** Blocks are numbered from 0 and stopped before the next one starts; `deltas` also checks what the deltas target. */
  function Read(r: Reader, e: Sse, deltas: bool): Reader {
    match e
    case MessageStart => if r == Fresh then Between(0) else Broken
    case BlockStart(i, b) => if r == Between(i) then Open(i, b.ToolBlock?) else Broken
    case TextDelta(i, _) => if r.Open? && (deltas ==> r == Open(i, false)) then r else Broken
    case JsonDelta(i, _) => if r.Open? && (deltas ==> r == Open(i, true)) then r else Broken
    case BlockStop(i) => if r.Open? && r.index == i then Between(i + 1) else Broken
    case MessageDelta(_, _) => if r.Between? then Closing else Broken
    case MessageStop => if r == Closing then Done else Broken
    case StreamError(_) => Broken
  }

  function ReadAll(r: Reader, out: seq<Sse>, deltas: bool): Reader
    decreases |out|
  {
    if out == [] then r else ReadAll(Read(r, out[0], deltas), out[1..], deltas)
  }

  lemma {:induction false} ReadConcat(r: Reader, a: seq<Sse>, b: seq<Sse>, deltas: bool)
    ensures ReadAll(r, a + b, deltas) == ReadAll(ReadAll(r, a, deltas), b, deltas)
    decreases |a|
  {
    hide Read;
    if a == [] {
      assert a + b == b;
    } else {
      assert (a + b)[1..] == a[1..] + b;
      ReadConcat(Read(r, a[0], deltas), a[1..], b, deltas);
    }
  }

  lemma {:induction false} BrokenStays(out: seq<Sse>, deltas: bool)
    ensures ReadAll(Broken, out, deltas) == Broken
  {
    if out != [] {
      BrokenStays(out[1..], deltas);
    }
  }

  /** Every text comes before the first tool starts, and every argument fragment after it; `n` tools have started before. */
  predicate Orderly(n: nat, ops: seq<Op>) {
    forall i :: 0 <= i < |ops| ==>
      && (ops[i].Say? ==> n + CountStarts(ops[..i]) == 0)
      && (ops[i].Args? ==> n + CountStarts(ops[..i]) > 0)
  }

  predicate Fits(n: nat, op: Op) {
    match op case Say(_) => n == 0 case Args(_, _) => n > 0 case Start(_, _, _) => true
  }

  lemma CountStartsCons(ops: seq<Op>, i: nat)
    requires i < |ops|
    ensures CountStarts(ops[..i + 1]) == (if ops[0].Start? then 1 else 0) + CountStarts(ops[1..][..i])
  {
    assert ops[..i + 1][1..] == ops[1..][..i];
  }

  lemma OrderlyUnfolds(n: nat, ops: seq<Op>)
    requires ops != []
    ensures Orderly(n, ops) <==> Fits(n, ops[0]) && Orderly(if ops[0].Start? then n + 1 else n, ops[1..])
  {
    var rest := ops[1..];
    var m := if ops[0].Start? then n + 1 else n;
    assert ops[..0] == [];
    if Orderly(n, ops) {
      forall i | 0 <= i < |rest|
        ensures (rest[i].Say? ==> m + CountStarts(rest[..i]) == 0) && (rest[i].Args? ==> m + CountStarts(rest[..i]) > 0)
      {
        CountStartsCons(ops, i);
        assert rest[i] == ops[i + 1];
      }
    }
    if Fits(n, ops[0]) && Orderly(m, rest) {
      forall i | 0 <= i < |ops|
        ensures (ops[i].Say? ==> n + CountStarts(ops[..i]) == 0) && (ops[i].Args? ==> n + CountStarts(ops[..i]) > 0)
      {
        if i > 0 {
          CountStartsCons(ops, i - 1);
          assert ops[i] == rest[i - 1];
        }
      }
    }
  }

  lemma ReadCons(r: Reader, e: Sse, rest: seq<Sse>, deltas: bool)
    ensures ReadAll(r, [e] + rest, deltas) == ReadAll(Read(r, e, deltas), rest, deltas)
    ensures ReadAll(r, [], deltas) == r
  {
    assert ([e] + rest)[1..] == rest;
  }

  lemma ReadOp(n: nat, op: Op, deltas: bool)
    ensures ReadAll(Open(n, n > 0), ToldOp(n, op), deltas)
         == if !deltas || Fits(n, op) then (if op.Start? then Open(n + 1, true) else Open(n, n > 0)) else Broken
  {
    hide ReadAll;
    var r := Open(n, n > 0);
    match op
    case Start(id, name, _) =>
      var start := BlockStart(n + 1, ToolBlock(id, name));
      ReadCons(r, BlockStop(n), [start], deltas);
      ReadCons(Between(n + 1), start, [], deltas);
      assert ToldOp(n, op) == [BlockStop(n)] + [start] && [start] + [] == [start];
      ReadCons(Open(n + 1, true), start, [], deltas);
    case _ =>
      assert ToldOp(n, op) == [ToldOp(n, op)[0]] + [];
      ReadCons(r, ToldOp(n, op)[0], [], deltas);
      ReadCons(Broken, ToldOp(n, op)[0], [], deltas);
  }

  lemma {:induction false} ToldReads(n: nat, ops: seq<Op>, deltas: bool)
    ensures var m := n + CountStarts(ops);
            ReadAll(Open(n, n > 0), Told(n, ops), deltas) == (if !deltas || Orderly(n, ops) then Open(m, m > 0) else Broken)
    decreases |ops|
  {
    hide Orderly, ToldOp, Fits, Read;
    if ops == [] {
      assert Orderly(n, ops) by { OrderlyNothing(n); }
      assert ReadAll(Open(n, n > 0), [], deltas) == Open(n, n > 0);
    } else {
      var next := if ops[0].Start? then n + 1 else n;
      OrderlyUnfolds(n, ops);
      ReadConcat(Open(n, n > 0), ToldOp(n, ops[0]), Told(next, ops[1..]), deltas);
      ReadOp(n, ops[0], deltas);
      BrokenStays(Told(next, ops[1..]), deltas);
      ToldReads(next, ops[1..], deltas);
    }
  }

  lemma OrderlyNothing(n: nat)
    ensures Orderly(n, [])
  {
  }

  lemma ReadHead(deltas: bool)
    ensures ReadAll(Fresh, HEAD, deltas) == Open(0, false)
  {
    hide ReadAll;
    var start := BlockStart(0, TextBlock);
    ReadCons(Fresh, MessageStart, [start], deltas);
    assert HEAD == [MessageStart] + [start] && [start] + [] == [start];
    ReadCons(Between(0), start, [], deltas);
    ReadCons(Open(0, false), start, [], deltas);
  }

  lemma ReadClosing(n: nat, tool: bool, reason: string, tokens: int, deltas: bool)
    ensures ReadAll(Open(n, tool), [BlockStop(n), MessageDelta(reason, tokens), MessageStop], deltas) == Done
  {
    hide ReadAll;
    var delta := MessageDelta(reason, tokens);
    assert [BlockStop(n), delta, MessageStop] == [BlockStop(n)] + ([delta] + ([MessageStop] + []));
    ReadCons(Open(n, tool), BlockStop(n), [delta] + ([MessageStop] + []), deltas);
    ReadCons(Between(n + 1), delta, [MessageStop] + [], deltas);
    ReadCons(Closing, MessageStop, [], deltas);
    ReadCons(Done, MessageStop, [], deltas);
  }

  /**
   * On every stream that closes normally the blocks are numbered 0, 1, 2, …, with at most one open,
   * each stopped once before the next starts; and every delta targets the open block, and one of its
   * own kind, exactly when no text follows a tool start and no arguments precede the first one.
   */
  lemma ClosedStreamsFollowTheProtocol(arrivals: seq<Arrival>)
    requires EndOf(arrivals) == Some(Close)
    ensures var out := Emitted(INITIAL, arrivals).out;
            && ReadAll(Fresh, out, false) == Done
            && (ReadAll(Fresh, out, true) == Done <==> Orderly(0, Ops(arrivals)))
  {
    hide Read, ReadAll, Orderly, Told, CountStarts, Emitted, Ops, EndOf;
    var last := RunTells(INITIAL, arrivals);
    var told := Told(0, Ops(arrivals));
    var closing := [BlockStop(last.index), MessageDelta(last.stopReason, last.completion), MessageStop];
    forall deltas: bool
      ensures ReadAll(Fresh, HEAD + told + closing, deltas)
           == if !deltas || Orderly(0, Ops(arrivals)) then Done else Broken
    {
      ReadConcat(Fresh, HEAD + told, closing, deltas);
      ReadConcat(Fresh, HEAD, told, deltas);
      ReadHead(deltas);
      ToldReads(0, Ops(arrivals), deltas);
      ReadClosing(last.index, last.index > 0, last.stopReason, last.completion, deltas);
      BrokenStays(closing, deltas);
    }
  }

  /** A stream cut short by an error or by the client leaves its last block open, everything before being in order. */
  lemma CutStreamsFollowTheProtocol(arrivals: seq<Arrival>)
    requires EndOf(arrivals) != Some(Close)
    ensures var out := Emitted(INITIAL, arrivals).out;
            var n := CountStarts(Ops(arrivals));
            (match EndOf(arrivals)
            case Some(Next(e)) =>
              && e.err.Some? && out != [] && out[|out| - 1] == StreamError(e.err.value)
              && ReadAll(Fresh, out[..|out| - 1], false) == Open(n, n > 0)
            case _ => ReadAll(Fresh, out, false) == Open(n, n > 0))
  {
    hide Read, ReadAll, Told, CountStarts, Emitted, Ops;
    var last := RunTells(INITIAL, arrivals);
    var told := Told(0, Ops(arrivals));
    ReadConcat(Fresh, HEAD, told, false);
    ReadHead(false);
    ToldReads(0, Ops(arrivals), false);
    EndIsTerminal(arrivals);
    assert HEAD + told + [] == HEAD + told;
    match EndOf(arrivals) {
      case Some(Next(e)) =>
        var out := HEAD + told + [StreamError(e.err.value)];
        assert out[..|out| - 1] == HEAD + told;
      case _ =>
    }
  }

  lemma {:induction false} EndIsTerminal(arrivals: seq<Arrival>)
    ensures EndOf(arrivals).Some? ==> Terminal(EndOf(arrivals).value)
  {
    if arrivals != [] && !Terminal(arrivals[0]) {
      EndIsTerminal(arrivals[1..]);
    }
  }

  // ---- Texts and arguments are passed on whole ----

  function TextOf(out: seq<Sse>): string {
    if out == [] then "" else (if out[0].TextDelta? then out[0].text else "") + TextOf(out[1..])
  }

  /** The arguments the client gathers for block `k`. */
  function JsonOf(out: seq<Sse>, k: nat): string {
    if out == [] then ""
    else (if out[0].JsonDelta? && out[0].index == k then out[0].partial else "") + JsonOf(out[1..], k)
  }

  function SaidIn(ops: seq<Op>): string {
    if ops == [] then "" else (if ops[0].Say? then ops[0].text else "") + SaidIn(ops[1..])
  }

  /** The argument fragments between the `k`-th tool start and the next, `n` tools having started before. */
  function ArgsUnder(n: nat, ops: seq<Op>, k: nat): string
    decreases |ops|
  {
    if ops == [] then ""
    else (if ops[0].Args? && n == k then ops[0].text else "")
         + ArgsUnder(if ops[0].Start? then n + 1 else n, ops[1..], k)
  }

  lemma GatheredCons(e: Sse, rest: seq<Sse>, k: nat)
    ensures TextOf([e] + rest) == (if e.TextDelta? then e.text else "") + TextOf(rest)
    ensures JsonOf([e] + rest, k) == (if e.JsonDelta? && e.index == k then e.partial else "") + JsonOf(rest, k)
  {
    assert ([e] + rest)[1..] == rest;
  }

  lemma {:induction false} GatheredConcat(a: seq<Sse>, b: seq<Sse>, k: nat)
    ensures TextOf(a + b) == TextOf(a) + TextOf(b)
    ensures JsonOf(a + b, k) == JsonOf(a, k) + JsonOf(b, k)
  {
    hide TextOf, JsonOf;
    if a == [] {
      assert a + b == b;
      GatheredNothing(k);
    } else {
      assert a + b == [a[0]] + (a[1..] + b) && a == [a[0]] + a[1..];
      GatheredCons(a[0], a[1..] + b, k);
      GatheredCons(a[0], a[1..], k);
      GatheredConcat(a[1..], b, k);
    }
  }

  lemma GatheredOp(n: nat, op: Op, k: nat)
    ensures TextOf(ToldOp(n, op)) == if op.Say? then op.text else ""
    ensures JsonOf(ToldOp(n, op), k) == if op.Args? && n == k then op.text else ""
  {
    hide TextOf, JsonOf;
    GatheredNothing(k);
    match op
    case Start(id, name, _) =>
      var start := BlockStart(n + 1, ToolBlock(id, name));
      assert ToldOp(n, op) == [BlockStop(n)] + ([start] + []);
      GatheredCons(BlockStop(n), [start] + [], k);
      GatheredCons(start, [], k);
    case _ =>
      assert ToldOp(n, op) == [ToldOp(n, op)[0]] + [];
      GatheredCons(ToldOp(n, op)[0], [], k);
  }

  lemma {:induction false} GatheredIsTold(n: nat, ops: seq<Op>, k: nat)
    ensures TextOf(Told(n, ops)) == SaidIn(ops)
    ensures JsonOf(Told(n, ops), k) == ArgsUnder(n, ops, k)
    decreases |ops|
  {
    hide ToldOp, TextOf, JsonOf;
    if ops == [] {
      GatheredNothing(k);
    } else {
      var next := if ops[0].Start? then n + 1 else n;
      GatheredConcat(ToldOp(n, ops[0]), Told(next, ops[1..]), k);
      GatheredOp(n, ops[0], k);
      GatheredIsTold(next, ops[1..], k);
    }
  }

  lemma GatheredNothing(k: nat)
    ensures TextOf([]) == "" && JsonOf([], k) == ""
  {
  }

  lemma GatheredEnds(s: State, end: Option<Arrival>, k: nat)
    ensures TextOf(HEAD) == "" && JsonOf(HEAD, k) == ""
    ensures TextOf(Ending(s, end)) == "" && JsonOf(Ending(s, end), k) == ""
  {
    hide TextOf, JsonOf;
    GatheredNothing(k);
    assert HEAD == [MessageStart] + ([BlockStart(0, TextBlock)] + []);
    GatheredCons(MessageStart, [BlockStart(0, TextBlock)] + [], k);
    GatheredCons(BlockStart(0, TextBlock), [], k);
    var e := Ending(s, end);
    if |e| == 3 {
      assert e == [e[0]] + ([e[1]] + ([e[2]] + []));
      GatheredCons(e[0], [e[1]] + ([e[2]] + []), k);
      GatheredCons(e[1], [e[2]] + [], k);
      GatheredCons(e[2], [], k);
    } else if |e| == 1 {
      assert e == [e[0]] + [];
      GatheredCons(e[0], [], k);
    }
  }

  /** However the stream ends, its text is the upstream's so far, and block `k` holds the fragments sent after `k` tool starts. */
  lemma NothingIsLost(arrivals: seq<Arrival>, k: nat)
    ensures var out := Emitted(INITIAL, arrivals).out;
            TextOf(out) == SaidIn(Ops(arrivals)) && JsonOf(out, k) == ArgsUnder(0, Ops(arrivals), k)
  {
    hide TextOf, JsonOf, Told, Emitted, Ops, Ending, SaidIn, ArgsUnder, EndOf;
    var last := RunTells(INITIAL, arrivals);
    var told := Told(0, Ops(arrivals));
    GatheredConcat(HEAD + told, Ending(last, EndOf(arrivals)), k);
    GatheredConcat(HEAD, told, k);
    GatheredIsTold(0, Ops(arrivals), k);
    GatheredEnds(last, EndOf(arrivals), k);
  }

  // ---- Fragments and the tool they are marked with ----

  type Fragment = (Option<nat>, string)

  function FragmentOf(op: Op): (f: seq<Fragment>)
    ensures |f| == if op.Args? then 1 else 0
  {
    if op.Args? then [(op.tool, op.text)] else []
  }

  /** The fragments sent between the `k`-th tool start and the next, with the tool each is marked with. */
  function FragmentsUnder(n: nat, ops: seq<Op>, k: nat): seq<Fragment>
    decreases |ops|
  {
    if ops == [] then []
    else (if n == k then FragmentOf(ops[0]) else []) + FragmentsUnder(if ops[0].Start? then n + 1 else n, ops[1..], k)
  }

  /** The fragments marked as tool `j`'s. */
  function FragmentsMarked(ops: seq<Op>, j: Option<nat>): seq<Fragment> {
    if ops == [] then []
    else (if ops[0].Args? && ops[0].tool == j then FragmentOf(ops[0]) else []) + FragmentsMarked(ops[1..], j)
  }

  function Texts(fs: seq<Fragment>): string {
    if fs == [] then "" else fs[0].1 + Texts(fs[1..])
  }

  /** Tool `j`'s fragments are exactly those sent between the `k`-th start and the next. */
  predicate OwnBlock(n: nat, ops: seq<Op>, k: nat, j: Option<nat>) {
    forall i :: 0 <= i < |ops| && ops[i].Args? ==> (ops[i].tool == j <==> n + CountStarts(ops[..i]) == k)
  }

  lemma OwnBlockUnfolds(n: nat, ops: seq<Op>, k: nat, j: Option<nat>)
    requires ops != []
    ensures OwnBlock(n, ops, k, j) <==>
              (ops[0].Args? ==> (ops[0].tool == j <==> n == k)) && OwnBlock(if ops[0].Start? then n + 1 else n, ops[1..], k, j)
  {
    var next, rest := if ops[0].Start? then n + 1 else n, ops[1..];
    forall i: nat | i < |rest| ensures rest[i] == ops[i + 1] && next + CountStarts(rest[..i]) == n + CountStarts(ops[..i + 1]) {
      CountStartsCons(ops, i);
    }
    assert ops[..0] == [];
    if OwnBlock(n, ops, k, j) {
      forall i | 0 <= i < |rest| && rest[i].Args? ensures rest[i].tool == j <==> next + CountStarts(rest[..i]) == k {
        assert ops[i + 1].Args?;
      }
    }
    if (ops[0].Args? ==> (ops[0].tool == j <==> n == k)) && OwnBlock(next, rest, k, j) {
      forall i | 0 <= i < |ops| && ops[i].Args? ensures ops[i].tool == j <==> n + CountStarts(ops[..i]) == k {
        if i > 0 {
          assert rest[i - 1].Args?;
        }
      }
    }
  }

  predicate AllMarked(fs: seq<Fragment>, j: Option<nat>) {
    forall i :: 0 <= i < |fs| ==> fs[i].0 == j
  }

  lemma AllMarkedConcat(a: seq<Fragment>, b: seq<Fragment>, j: Option<nat>)
    ensures AllMarked(a + b, j) <==> AllMarked(a, j) && AllMarked(b, j)
  {
    if AllMarked(a + b, j) {
      assert forall i :: 0 <= i < |a| ==> a[i] == (a + b)[i];
      assert forall i :: 0 <= i < |b| ==> b[i] == (a + b)[|a| + i];
    }
  }

  lemma {:induction false} MarkedAreMarked(ops: seq<Op>, j: Option<nat>)
    ensures AllMarked(FragmentsMarked(ops, j), j)
  {
    if ops != [] {
      MarkedAreMarked(ops[1..], j);
    }
  }

  /** When all of the block's fragments are tool `j`'s, it holds all of them exactly when none is elsewhere. */
  lemma {:induction false} OwnBlockIff(n: nat, ops: seq<Op>, k: nat, j: Option<nat>)
    requires AllMarked(FragmentsUnder(n, ops, k), j)
    ensures |FragmentsUnder(n, ops, k)| <= |FragmentsMarked(ops, j)|
    ensures |FragmentsUnder(n, ops, k)| == |FragmentsMarked(ops, j)| <==> OwnBlock(n, ops, k, j)
    ensures OwnBlock(n, ops, k, j) ==> FragmentsUnder(n, ops, k) == FragmentsMarked(ops, j)
    decreases |ops|
  {
    hide AllMarked, OwnBlock, CountStarts;
    if ops != [] {
      var next := if ops[0].Start? then n + 1 else n;
      AllMarkedConcat(if n == k then FragmentOf(ops[0]) else [], FragmentsUnder(next, ops[1..], k), j);
      HeadIsMarked(n, ops[0], k, j);
      OwnBlockUnfolds(n, ops, k, j);
      OwnBlockIff(next, ops[1..], k, j);
    } else {
      NoFragmentsNoBlock(n, k, j);
    }
  }

  lemma HeadIsMarked(n: nat, op: Op, k: nat, j: Option<nat>)
    requires AllMarked(if n == k then FragmentOf(op) else [], j)
    ensures op.Args? && n == k ==> op.tool == j
  {
    if op.Args? && n == k {
      assert FragmentOf(op)[0].0 == op.tool;
    }
  }

  lemma NoFragmentsNoBlock(n: nat, k: nat, j: Option<nat>)
    ensures OwnBlock(n, [], k, j)
  {
  }

  lemma {:induction false} OwnBlockTakesOnlyItsOwn(n: nat, ops: seq<Op>, k: nat, j: Option<nat>)
    requires OwnBlock(n, ops, k, j)
    ensures AllMarked(FragmentsUnder(n, ops, k), j)
    decreases |ops|
  {
    hide OwnBlock, CountStarts;
    if ops != [] {
      OwnBlockUnfolds(n, ops, k, j);
      OwnBlockTakesOnlyItsOwn(if ops[0].Start? then n + 1 else n, ops[1..], k, j);
    }
  }

  lemma {:induction false} TextsConcat(a: seq<Fragment>, b: seq<Fragment>)
    ensures Texts(a + b) == Texts(a) + Texts(b)
  {
    if a == [] {
      assert a + b == b;
    } else {
      assert (a + b)[1..] == a[1..] + b;
      TextsConcat(a[1..], b);
    }
  }

  lemma TextOfOne(op: Op)
    ensures Texts(FragmentOf(op)) == if op.Args? then op.text else ""
  {
    if op.Args? {
      assert FragmentOf(op)[1..] == [];
    }
  }

  lemma {:induction false} ArgsAreTexts(n: nat, ops: seq<Op>, k: nat)
    ensures ArgsUnder(n, ops, k) == Texts(FragmentsUnder(n, ops, k))
    decreases |ops|
  {
    hide Texts, FragmentOf;
    assert Texts([]) == "" by { NoTexts(); }
    if ops != [] {
      var next := if ops[0].Start? then n + 1 else n;
      TextOfOne(ops[0]);
      TextsConcat(if n == k then FragmentOf(ops[0]) else [], FragmentsUnder(next, ops[1..], k));
      ArgsAreTexts(next, ops[1..], k);
    }
  }

  lemma NoTexts()
    ensures Texts([]) == ""
  {
  }

  /**
   * Block `k` receives exactly tool `j`'s fragments, in order, exactly when they are those sent between that
   * tool start and the next. What the client gathers for the block is their text.
   */
  lemma FragmentsReachTheirToolIff(arrivals: seq<Arrival>, k: nat, j: Option<nat>)
    ensures var ops := Ops(arrivals);
            && JsonOf(Emitted(INITIAL, arrivals).out, k) == Texts(FragmentsUnder(0, ops, k))
            && (FragmentsUnder(0, ops, k) == FragmentsMarked(ops, j) <==>
                  forall i :: 0 <= i < |ops| && ops[i].Args? ==> (ops[i].tool == j <==> CountStarts(ops[..i]) == k))
  {
    hide JsonOf, Emitted, Ops, FragmentsUnder, FragmentsMarked, CountStarts, AllMarked, ArgsUnder, Texts;
    var ops := Ops(arrivals);
    NothingIsLost(arrivals, k);
    ArgsAreTexts(0, ops, k);
    MarkedAreMarked(ops, j);
    if FragmentsUnder(0, ops, k) == FragmentsMarked(ops, j) {
      OwnBlockIff(0, ops, k, j);
    }
    if OwnBlock(0, ops, k, j) {
      OwnBlockTakesOnlyItsOwn(0, ops, k, j);
      OwnBlockIff(0, ops, k, j);
    }
  }

  /** So then the block holds the joined text of tool `j`'s fragments. */
  lemma ArgumentsReachTheirTool(arrivals: seq<Arrival>, k: nat, j: Option<nat>)
    requires var ops := Ops(arrivals);
             forall i :: 0 <= i < |ops| && ops[i].Args? ==> (ops[i].tool == j <==> CountStarts(ops[..i]) == k)
    ensures JsonOf(Emitted(INITIAL, arrivals).out, k) == Texts(FragmentsMarked(Ops(arrivals), j))
  {
    hide JsonOf, Emitted, Ops, FragmentsUnder, FragmentsMarked, Texts;
    FragmentsReachTheirToolIff(arrivals, k, j);
  }

  /** A chunk that carries nothing but one argument fragment of a tool already started. */
  predicate IsFragment(a: Arrival, text: string, tool: Option<nat>) {
    && !Terminal(a) && !a.event.isDone && a.event.chunk.Some? && a.event.chunk.value.choices != []
    && var choice := a.event.chunk.value.choices[0];
       && choice.content == "" && |choice.toolCalls| == 1
       && choice.toolCalls[0] == ToolDelta(tool, choice.toolCalls[0].id, choice.toolCalls[0].name, text)
       && (choice.toolCalls[0].id == "" || choice.toolCalls[0].name == "") && text != ""
  }

  lemma {:induction false} OpsConcat(a: seq<Arrival>, b: seq<Arrival>)
    requires EndOf(a) == None
    ensures Ops(a + b) == Ops(a) + Ops(b)
  {
    if a == [] {
      assert a + b == b;
    } else {
      hide OpsOfEvent;
      assert (a + b)[1..] == a[1..] + b;
      OpsConcat(a[1..], b);
    }
  }

  lemma FragmentIsArgs(a: Arrival, text: string, tool: Option<nat>)
    requires IsFragment(a, text, tool)
    ensures Ops([a]) == [Args(text, tool)]
  {
    var tcs := a.event.chunk.value.choices[0].toolCalls;
    assert tcs[..0] == [] && OpsOfCalls([]) == [];
    assert [a][1..] == [];
  }

  /**
   * Wherever a fragment arrives in a stream, the client files it under the block started last, whatever
   * tool it is marked with: a fragment of an earlier tool goes to the later one's block.
   */
  lemma LateFragmentsGoAstray(before: seq<Arrival>, a: Arrival, text: string, tool: Option<nat>, k: nat)
    requires EndOf(before) == None && IsFragment(a, text, tool)
    ensures JsonOf(Emitted(INITIAL, before + [a]).out, k)
         == JsonOf(Emitted(INITIAL, before).out, k) + if k == Emitted(INITIAL, before).index then text else ""
  {
    hide JsonOf, Emitted, Ops, ArgsUnder, IsFragment, EndOf, CountStarts;
    NothingIsLost(before + [a], k);
    NothingIsLost(before, k);
    OpsConcat(before, [a]);
    FragmentIsArgs(a, text, tool);
    UnderSnoc(0, Ops(before), text, tool, k);
    var last := RunTells(INITIAL, before);
  }

  lemma {:induction false} UnderSnoc(n: nat, before: seq<Op>, text: string, tool: Option<nat>, k: nat)
    ensures ArgsUnder(n, before + [Args(text, tool)], k)
         == ArgsUnder(n, before, k) + if k == n + CountStarts(before) then text else ""
    decreases |before|
  {
    var all := before + [Args(text, tool)];
    if before == [] {
      assert all[1..] == [];
    } else {
      assert all[1..] == before[1..] + [Args(text, tool)];
      UnderSnoc(if before[0].Start? then n + 1 else n, before[1..], text, tool, k);
    }
  }

  /** What has been written is never taken back: a longer run only adds to it. */
  lemma {:induction false} OutputOnlyGrows(s: State, a: seq<Arrival>, b: seq<Arrival>)
    ensures Emitted(s, a).out <= Emitted(s, a + b).out
    ensures Emitted(s, a + b) == Emitted(Emitted(s, a), b)
    decreases |a|
  {
    hide OnArrival;
    if a == [] {
      assert a + b == b;
      OutGrows(s, b);
    } else if s.ended {
      EndedStays(s, b);
    } else {
      assert (a + b)[1..] == a[1..] + b;
      OutputOnlyGrows(OnArrival(s, a[0]), a[1..], b);
    }
  }

  lemma EndedStays(s: State, b: seq<Arrival>)
    requires s.ended
    ensures Emitted(s, b) == s
  {
  }

  lemma {:induction false} OutGrows(s: State, b: seq<Arrival>)
    ensures s.out <= Emitted(s, b).out
    decreases |b|
  {
    hide OnArrival;
    if b != [] && !s.ended {
      ArrivalGrows(s, b[0]);
      OutGrows(OnArrival(s, b[0]), b[1..]);
    }
  }

  lemma ArrivalGrows(s: State, a: Arrival)
    ensures s.out <= OnArrival(s, a).out
  {
    if a.Next? && a.event.err.None? && !a.event.isDone && a.event.chunk.Some? {
      ChunkGrows(if s.channel == "" then s.(channel := a.event.channel) else s, a.event.chunk.value);
    }
  }

  lemma ChunkGrows(s: State, c: Chunk)
    ensures s.out <= OnChunk(s, c).out
  {
    if c.choices != [] {
      hide OnToolCalls, OnFinish, OnText;
      var t := OnFinish(if c.id != "" && s.chatId == "" then s.(chatId := c.id) else s, c.choices[0].finishReason);
      assert t.out == s.out by { FinishIsSilent(if c.id != "" && s.chatId == "" then s.(chatId := c.id) else s, c.choices[0].finishReason); }
      TextGrows(t, c.choices[0].content);
      CallsGrow(OnText(t, c.choices[0].content), c.choices[0].toolCalls);
    }
  }

  lemma FinishIsSilent(s: State, reason: Option<string>)
    ensures OnFinish(s, reason).out == s.out
  {
  }

  lemma TextGrows(s: State, text: string)
    ensures s.out <= OnText(s, text).out
  {
  }

  lemma {:induction false} CallsGrow(s: State, tcs: seq<ToolDelta>)
    ensures s.out <= OnToolCalls(s, tcs).out
    ensures OnToolCalls(s, tcs).completion == s.completion && OnToolCalls(s, tcs).prompt == s.prompt
  {
    if tcs != [] {
      CallsGrow(s, tcs[..|tcs| - 1]);
    }
  }

  // ---- Against the upstream's own chunks ----

  /** The text an arrival carries where the loop looks for it: the first choice. */
  function ContentOf(a: Arrival): string {
    if !a.Next? || a.event.isDone || a.event.chunk.None? || a.event.chunk.value.choices == [] then ""
    else a.event.chunk.value.choices[0].content
  }

  function Spoken(arrivals: seq<Arrival>): string {
    if arrivals == [] || Terminal(arrivals[0]) then "" else ContentOf(arrivals[0]) + Spoken(arrivals[1..])
  }

  function SpokenChunks(arrivals: seq<Arrival>): nat {
    if arrivals == [] || Terminal(arrivals[0]) then 0
    else (if ContentOf(arrivals[0]) != "" then 1 else 0) + SpokenChunks(arrivals[1..])
  }

  lemma {:induction false} SaidConcat(a: seq<Op>, b: seq<Op>)
    ensures SaidIn(a + b) == SaidIn(a) + SaidIn(b)
  {
    if a == [] {
      assert a + b == b;
    } else {
      assert (a + b)[1..] == a[1..] + b;
      SaidConcat(a[1..], b);
    }
  }

  lemma CallSaysNothing(tc: ToolDelta)
    ensures SaidIn(OpsOfCall(tc)) == ""
  {
    var start := if tc.id != "" && tc.name != "" then [Start(tc.id, tc.name, tc.index)] else [];
    var args := if tc.arguments != "" then [Args(tc.arguments, tc.index)] else [];
    SaidConcat(start, args);
    assert start != [] ==> start[1..] == [];
    assert args != [] ==> args[1..] == [];
  }

  lemma {:induction false} CallsSayNothing(tcs: seq<ToolDelta>)
    ensures SaidIn(OpsOfCalls(tcs)) == ""
  {
    hide OpsOfCall;
    if tcs != [] {
      CallsSayNothing(tcs[..|tcs| - 1]);
      CallSaysNothing(tcs[|tcs| - 1]);
      SaidConcat(OpsOfCalls(tcs[..|tcs| - 1]), OpsOfCall(tcs[|tcs| - 1]));
    }
  }

  /** The client's text is the contents of the upstream's chunks, one after the other. */
  lemma {:induction false} TextIsPassedOn(arrivals: seq<Arrival>)
    ensures TextOf(Emitted(INITIAL, arrivals).out) == Spoken(arrivals)
  {
    hide Emitted, TextOf, Ops;
    NothingIsLost(arrivals, 0);
    SaidIsSpoken(arrivals);
  }

  lemma EventSaysItsContent(a: Arrival)
    requires !Terminal(a)
    ensures SaidIn(OpsOfEvent(a.event)) == ContentOf(a)
  {
    if ContentOf(a) != "" {
      var choice := a.event.chunk.value.choices[0];
      CallsSayNothing(choice.toolCalls);
      SaidConcat([Say(choice.content)], OpsOfCalls(choice.toolCalls));
      assert [Say(choice.content)][1..] == [];
    } else if OpsOfEvent(a.event) != [] {
      var calls := a.event.chunk.value.choices[0].toolCalls;
      assert OpsOfEvent(a.event) == OpsOfCalls(calls);
      CallsSayNothing(calls);
    }
  }

  lemma {:induction false} SaidIsSpoken(arrivals: seq<Arrival>)
    ensures SaidIn(Ops(arrivals)) == Spoken(arrivals)
  {
    hide OpsOfEvent, ContentOf;
    if arrivals != [] && !Terminal(arrivals[0]) {
      EventSaysItsContent(arrivals[0]);
      SaidConcat(OpsOfEvent(arrivals[0].event), Ops(arrivals[1..]));
      SaidIsSpoken(arrivals[1..]);
    }
  }

  // ---- What the audit record bills ----

  /** The usage an event reports where the loop looks for it: beside a choice. */
  predicate CountsUsage(a: Arrival) {
    && a.Next? && a.event.err.None? && !a.event.isDone && a.event.chunk.Some?
    && a.event.chunk.value.choices != [] && a.event.chunk.value.usage.Some?
  }

  /** Billing `usage` if there is one, else one token more than `s` for a chunk with text. */
  predicate Counted(s: State, t: State, text: string, usage: Option<Usage>) {
    && t.audits == s.audits && t.ended == s.ended
    && match usage
       case Some(u) => t.prompt == u.prompt && t.completion == u.completion
       case None => t.prompt == s.prompt && t.completion == s.completion + if text != "" then 1 else 0
  }

  lemma FinishKeepsCounts(s: State, reason: Option<string>)
    ensures SameCounts(s, OnFinish(s, reason))
  {
  }

  lemma TextCounts(s: State, text: string)
    ensures Counted(s, OnText(s, text), text, None)
  {
  }

  lemma ChunkCounts(s: State, c: Chunk)
    ensures if c.choices == [] then Counted(s, OnChunk(s, c), "", None)
            else Counted(s, OnChunk(s, c), c.choices[0].content, c.usage)
  {
    hide OnToolCalls, OnText, OnFinish;
    if c.choices != [] {
      var t := if c.id != "" && s.chatId == "" then s.(chatId := c.id) else s;
      var u := OnFinish(t, c.choices[0].finishReason);
      FinishKeepsCounts(t, c.choices[0].finishReason);
      TextCounts(u, c.choices[0].content);
      CallsKeepCounts(OnText(u, c.choices[0].content), c.choices[0].toolCalls);
    }
  }

  function UsageIn(a: Arrival): Option<Usage> {
    if CountsUsage(a) then a.event.chunk.value.usage else None
  }

  lemma ArrivalCounts(s: State, a: Arrival)
    requires !s.ended && !Terminal(a)
    ensures Counted(s, OnArrival(s, a), ContentOf(a), UsageIn(a))
  {
    hide OnChunk;
    if !a.event.isDone && a.event.chunk.Some? {
      ChunkCounts(if s.channel == "" then s.(channel := a.event.channel) else s, a.event.chunk.value);
    }
  }

  lemma EndAudits(s: State, a: Arrival)
    requires !s.ended && Terminal(a)
    ensures var t := OnArrival(s, a);
            && t.ended && t.prompt == s.prompt && t.completion == s.completion
            && t.audits == s.audits + [Audit(t.channel, t.chatId, t.prompt, t.completion)]
  {
  }

  predicate SameCounts(s: State, t: State) {
    s.completion == t.completion && s.prompt == t.prompt && s.audits == t.audits && s.ended == t.ended
  }

  lemma {:induction false} CallsKeepCounts(s: State, tcs: seq<ToolDelta>)
    ensures SameCounts(s, OnToolCalls(s, tcs))
  {
    if tcs != [] {
      CallsKeepCounts(s, tcs[..|tcs| - 1]);
    }
  }

  lemma {:induction false} BilledWithoutUsage(s: State, arrivals: seq<Arrival>)
    requires !s.ended && forall i :: 0 <= i < |arrivals| ==> !CountsUsage(arrivals[i])
    ensures var r := Emitted(s, arrivals);
            && r.prompt == s.prompt && r.completion == s.completion + SpokenChunks(arrivals)
            && r.ended == EndOf(arrivals).Some?
            && r.audits == s.audits + if r.ended then [Audit(r.channel, r.chatId, r.prompt, r.completion)] else []
    decreases |arrivals|
  {
    hide OnArrival, ContentOf, CountsUsage;
    if arrivals != [] {
      var t := OnArrival(s, arrivals[0]);
      if Terminal(arrivals[0]) {
        EndAudits(s, arrivals[0]);
        EndedStays(t, arrivals[1..]);
      } else {
        ArrivalCounts(s, arrivals[0]);
        BilledWithoutUsage(t, arrivals[1..]);
      }
    }
  }

  lemma CountsNoUsageAtEnd(a: Arrival)
    ensures Terminal(a) ==> !CountsUsage(a)
  {
  }

  lemma OpenRun(arrivals: seq<Arrival>)
    requires EndOf(arrivals) == None
    ensures !Emitted(INITIAL, arrivals).ended && Emitted(INITIAL, arrivals).audits == []
  {
    hide Emitted, Told, CountStarts, Ops, Ending, EndOf;
    var last := RunTells(INITIAL, arrivals);
  }

  /** The one audit record bills the last usage reported beside a choice, plus one token for each later chunk with text. */
  lemma AuditBillsLastUsage(before: seq<Arrival>, a: Arrival, after: seq<Arrival>)
    requires EndOf(before) == None && CountsUsage(a) && EndOf(after).Some?
    requires forall i :: 0 <= i < |after| ==> !CountsUsage(after[i])
    ensures var r := Emitted(INITIAL, before + ([a] + after));
            var u := a.event.chunk.value.usage.value;
            r.audits == [Audit(r.channel, r.chatId, u.prompt, u.completion + SpokenChunks(after))]
  {
    hide Emitted, OnArrival, ContentOf, EndOf, SpokenChunks;
    var s := Emitted(INITIAL, before);
    OpenRun(before);
    OutputOnlyGrows(INITIAL, before, [a] + after);
    CountsNoUsageAtEnd(a);
    ArrivalCounts(s, a);
    EmittedOne(s, a, after);
    var t := OnArrival(s, a);
    assert t.audits == [] && !t.ended && t.completion == a.event.chunk.value.usage.value.completion;
    BilledWithoutUsage(t, after);
  }

  lemma EmittedOne(s: State, a: Arrival, after: seq<Arrival>)
    requires !s.ended
    ensures Emitted(s, [a] + after) == Emitted(OnArrival(s, a), after)
  {
    hide OnArrival;
    assert ([a] + after)[1..] == after;
  }

  // ---- When a report is billed ----

  /** The event `e` with its chunk `c` reporting `u`. */
  function Reporting(e: Event, c: Chunk, u: Usage): Arrival {
    Next(e.(chunk := Some(c.(usage := Some(u)))))
  }

  /** The run that reports `u` in between bills `u`, once, and nothing else. */
  predicate Bills(before: seq<Arrival>, e: Event, c: Chunk, u: Usage, after: seq<Arrival>) {
    var r := Emitted(INITIAL, before + ([Reporting(e, c, u)] + after));
    r.audits == [Audit(r.channel, r.chatId, u.prompt, u.completion)]
  }

  /**
   * Exactly when the last usage reported is what a run bills, whatever it says: it stands beside a choice,
   * not in an end mark, and no text comes after it.
   */
  lemma LastReportIsBilledIff(before: seq<Arrival>, e: Event, c: Chunk, after: seq<Arrival>)
    requires EndOf(before) == None && e.err.None? && EndOf(after).Some?
    requires forall i :: 0 <= i < |after| ==> !CountsUsage(after[i])
    ensures (forall u :: Bills(before, e, c, u, after)) <==> !e.isDone && c.choices != [] && SpokenChunks(after) == 0
  {
    hide Emitted, EndOf, SpokenChunks, Bills;
    if !e.isDone && c.choices != [] {
      forall u ensures Bills(before, e, c, u, after) <==> SpokenChunks(after) == 0 {
        BillsUnlessTextFollows(before, e, c, u, after);
      }
      if SpokenChunks(after) != 0 {
        assert !Bills(before, e, c, Usage(0, 0), after);
      }
    } else {
      BillsNotBoth(before, e, c, Usage(0, 0), Usage(1, 1), after);
    }
  }

  lemma BillsUnlessTextFollows(before: seq<Arrival>, e: Event, c: Chunk, u: Usage, after: seq<Arrival>)
    requires EndOf(before) == None && e.err.None? && EndOf(after).Some? && !e.isDone && c.choices != []
    requires forall i :: 0 <= i < |after| ==> !CountsUsage(after[i])
    ensures Bills(before, e, c, u, after) <==> SpokenChunks(after) == 0
  {
    hide Emitted, EndOf, SpokenChunks;
    AuditBillsLastUsage(before, Reporting(e, c, u), after);
  }

  /** Where the loop does not look for usage, two reports leave the same record. */
  lemma BillsNotBoth(before: seq<Arrival>, e: Event, c: Chunk, u: Usage, v: Usage, after: seq<Arrival>)
    requires EndOf(before) == None && e.err.None? && (e.isDone || c.choices == []) && u.prompt != v.prompt
    ensures !Bills(before, e, c, u, after) || !Bills(before, e, c, v, after)
  {
    hide Emitted, OnArrival, EndOf;
    var s := Emitted(INITIAL, before);
    OpenRun(before);
    var a, b := Reporting(e, c, u), Reporting(e, c, v);
    OutputOnlyGrows(INITIAL, before, [a] + after);
    OutputOnlyGrows(INITIAL, before, [b] + after);
    EmittedOne(s, a, after);
    EmittedOne(s, b, after);
    UsageWithoutChoiceIsSilent(s, e, c, u, v);
  }

  lemma UsageWithoutChoiceIsSilent(s: State, e: Event, c: Chunk, u: Usage, v: Usage)
    requires e.err.None? && (e.isDone || c.choices == [])
    ensures OnArrival(s, Reporting(e, c, u)) == OnArrival(s, Reporting(e, c, v))
  {
  }

  /** So no run bills every report that comes in a chunk without choices. */
  lemma UsageWithoutChoiceIsNotBilled(before: seq<Arrival>, e: Event, c: Chunk, after: seq<Arrival>)
    requires EndOf(before) == None && e.err.None? && EndOf(after).Some? && c.choices == []
    requires forall i :: 0 <= i < |after| ==> !CountsUsage(after[i])
    ensures exists u :: !Bills(before, e, c, u, after)
  {
    hide Emitted, EndOf, SpokenChunks, Bills;
    LastReportIsBilledIff(before, e, c, after);
  }
}
