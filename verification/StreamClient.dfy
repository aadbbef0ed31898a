/** What a client makes of the event stream. The client checks the event order of
    the Anthropic Messages API ("Streaming messages", section "Event types") and
    puts the content blocks together; the builder says what they should be,
    without indices, events or flags. */
module StreamClient {
  import opened Results
  import opened StreamTypes
  import opened StreamConverter

  // ---- The client ---------------------------------------------------------

  /** Waiting for message_start; between blocks; inside one; after message_delta;
      after message_stop; or an event came out of order. */
  datatype Phase = Waiting | Idle | Open | Ending | Stopped | Broken

  datatype Client = Client(phase: Phase, blocks: seq<Block>, stopReason: string, usage: Usage)

  const FRESH := Client(Waiting, [], "", Usage(0, None, 0))

  function EmptyBlock(b: StartedBlock): Block {
    match b
    case ThinkingStart => Thinking("")
    case TextStart => Text("")
    case ToolUseStart(id, name) => ToolUse(id, name, "")
  }

  /** A block grown by a delta of its own type. */
  function Grow(b: Block, d: Delta): Option<Block> {
    match (b, d)
    case (Thinking(t), ThinkingDelta(s)) => Some(Thinking(t + s))
    case (Text(t), TextDelta(s)) => Some(Text(t + s))
    case (ToolUse(id, name, json), InputJsonDelta(s)) => Some(ToolUse(id, name, json + s))
    case _ => None
  }

  function Last(bs: seq<Block>): Block
    requires bs != []
  {
    bs[|bs| - 1]
  }

  function Receive(c: Client, e: Event): Client {
    match e
    case MessageStart(_, _, u) => if c.phase == Waiting then c.(phase := Idle, usage := u) else c.(phase := Broken)
    case BlockStart(i, b) =>
      if c.phase == Idle && i == |c.blocks| then c.(phase := Open, blocks := c.blocks + [EmptyBlock(b)])
      else c.(phase := Broken)
    case BlockDelta(i, d) =>
      if c.phase == Open && c.blocks != [] && i == |c.blocks| - 1 && Grow(Last(c.blocks), d).Some?
      then c.(blocks := c.blocks[..|c.blocks| - 1] + [Grow(Last(c.blocks), d).value])
      else c.(phase := Broken)
    case BlockStop(i) =>
      if c.phase == Open && i == |c.blocks| - 1 then c.(phase := Idle) else c.(phase := Broken)
    case MessageDelta(stop, u) =>
      if c.phase == Idle then c.(phase := Ending, stopReason := stop, usage := u) else c.(phase := Broken)
    case MessageStop => if c.phase == Ending then c.(phase := Stopped) else c.(phase := Broken)
  }

  function Feed(c: Client, es: seq<Event>): Client
    decreases |es|
  {
    if es == [] then c else Feed(Receive(c, es[0]), es[1..])
  }

  lemma {:induction false} FeedConcat(c: Client, a: seq<Event>, b: seq<Event>)
    ensures Feed(c, a + b) == Feed(Feed(c, a), b)
    decreases |a|
  {
    if a == [] {
      assert a + b == b;
    } else {
      FeedConcat(Receive(c, a[0]), a[1..], b);
      assert (a + b)[1..] == a[1..] + b;
    }
  }

  lemma FeedOne(c: Client, e: Event)
    ensures Feed(c, [e]) == Receive(c, e)
  {
    assert [e][1..] == [];
  }

  // ---- The builder --------------------------------------------------------

  /** One piece of a message, in the order the model produced it. */
  datatype Atom<A> = Thought(text: string) | Said(text: string) | Called(call: ToolCall<A>)

  function AtomsOf<A>(r: Chunk<A>): seq<Atom<A>> {
    (if r.thinking == "" then [] else [Thought(r.thinking)]) +
    (if r.content == "" then [] else [Said(r.content)]) +
    CallAtoms(r.toolCalls)
  }

  function CallAtoms<A>(tcs: seq<ToolCall<A>>): (r: seq<Atom<A>>)
    ensures |r| == |tcs| && forall k | 0 <= k < |r| :: r[k] == Called(tcs[k])
  {
    seq(|tcs|, k requires 0 <= k < |tcs| => Called(tcs[k]))
  }

  function Atoms<A>(rs: seq<Chunk<A>>): seq<Atom<A>> {
    if rs == [] then [] else Atoms(rs[..|rs| - 1]) + AtomsOf(rs[|rs| - 1])
  }

  /** The blocks so far, and whether the last one can still grow. */
  datatype Built = Built(blocks: seq<Block>, growing: bool)

  /** A thinking block has been finished: later thinking is ignored. */
  ghost predicate ThinkingOver(b: Built) {
    exists k | 0 <= k < |b.blocks| :: b.blocks[k].Thinking? && !(b.growing && k == |b.blocks| - 1)
  }

  /** The ids of the tool calls that have become blocks. */
  function UsedIds(bs: seq<Block>): set<string> {
    set k | 0 <= k < |bs| && bs[k].ToolUse? :: bs[k].id
  }

  lemma UsedIdsAppend(bs: seq<Block>, b: Block)
    ensures UsedIds(bs + [b]) == UsedIds(bs) + (if b.ToolUse? then {b.id} else {})
  {
    var all := bs + [b];
    assert forall k | 0 <= k < |bs| :: all[k] == bs[k];
    assert all[|bs|] == b;
  }

  lemma UsedIdsReplace(bs: seq<Block>, b: Block)
    requires bs != [] && !Last(bs).ToolUse? && !b.ToolUse?
    ensures UsedIds(ReplaceLast(bs, b)) == UsedIds(bs)
  {
    var front := bs[..|bs| - 1];
    assert bs == front + [Last(bs)];
    UsedIdsAppend(front, Last(bs));
    UsedIdsAppend(front, b);
  }

  function ReplaceLast(bs: seq<Block>, b: Block): seq<Block>
    requires bs != []
  {
    bs[..|bs| - 1] + [b]
  }

  ghost function Add<A>(marshal: A -> Option<string>, b: Built, a: Atom<A>): Built {
    match a
    case Thought(t) =>
      if ThinkingOver(b) then b
      else if b.growing && b.blocks != [] && Last(b.blocks).Thinking?
      then Built(ReplaceLast(b.blocks, Thinking(Last(b.blocks).text + t)), true)
      else Built(b.blocks + [Thinking(t)], true)
    case Said(t) =>
      if b.growing && b.blocks != [] && Last(b.blocks).Text?
      then Built(ReplaceLast(b.blocks, Text(Last(b.blocks).text + t)), true)
      else Built(b.blocks + [Text(t)], true)
    case Called(tc) =>
      if tc.id in UsedIds(b.blocks) then b
      else if marshal(tc.args).None? then b.(growing := false)
      else Built(b.blocks + [ToolUse(tc.id, tc.name, marshal(tc.args).value)], false)
  }

  ghost function AddAll<A>(marshal: A -> Option<string>, b: Built, atoms: seq<Atom<A>>): Built {
    if atoms == [] then b
    else Add(marshal, AddAll(marshal, b, atoms[..|atoms| - 1]), atoms[|atoms| - 1])
  }

  /** The blocks that a sequence of atoms makes. */
  ghost function Build<A>(marshal: A -> Option<string>, atoms: seq<Atom<A>>): Built {
    AddAll(marshal, Built([], false), atoms)
  }

  lemma {:induction false} AddAllConcat<A>(marshal: A -> Option<string>, b: Built, x: seq<Atom<A>>, y: seq<Atom<A>>)
    ensures AddAll(marshal, b, x + y) == AddAll(marshal, AddAll(marshal, b, x), y)
    decreases |y|
  {
    if y == [] {
      assert x + y == x;
    } else {
      AddAllConcat(marshal, b, x, y[..|y| - 1]);
      assert (x + y)[..|x + y| - 1] == x + y[..|y| - 1];
    }
  }

  lemma AddOne<A>(marshal: A -> Option<string>, b: Built, a: Atom<A>)
    ensures AddAll(marshal, b, [a]) == Add(marshal, b, a)
  {
    assert [a][..0] == [];
  }

  // ---- Converter, client and builder in step ------------------------------

  function BuiltOf(c: Client): Built { Built(c.blocks, c.phase == Open) }

  /** The converter's flags say where the client is. */
  ghost predicate InStep(s: State, c: Client) {
    && !s.firstWrite
    && (c.phase == Idle || c.phase == Open)
    && (c.phase == Open ==> c.blocks != [] && !Last(c.blocks).ToolUse?)
    && s.contentIndex == (if c.phase == Open then |c.blocks| - 1 else |c.blocks|)
    && (s.textStarted <==> c.phase == Open && Last(c.blocks).Text?)
    && (s.thinkingStarted && !s.thinkingDone <==> c.phase == Open && Last(c.blocks).Thinking?)
    && (s.thinkingDone <==> ThinkingOver(BuiltOf(c)))
    && (s.thinkingDone ==> s.thinkingStarted)
    && s.sent == UsedIds(c.blocks)
  }

  lemma CloseThinkingInStep(s: State, c: Client)
    requires InStep(s, c)
    ensures var (s', es) := CloseThinking(s);
            InStep(s', Feed(c, es)) && Feed(c, es).blocks == c.blocks &&
            !(s'.thinkingStarted && !s'.thinkingDone) && s'.textStarted == s.textStarted
  {
    if s.thinkingStarted && !s.thinkingDone {
      var c' := Receive(c, BlockStop(s.contentIndex));
      assert c'.blocks[|c.blocks| - 1].Thinking?;
    }
  }

  lemma CloseTextInStep(s: State, c: Client)
    requires InStep(s, c)
    ensures var (s', es) := CloseText(s);
            InStep(s', Feed(c, es)) && Feed(c, es).blocks == c.blocks && !s'.textStarted &&
            s'.thinkingStarted == s.thinkingStarted && s'.thinkingDone == s.thinkingDone
  {}

  lemma ThinkInStep<A>(marshal: A -> Option<string>, s: State, c: Client, text: string)
    requires InStep(s, c)
    ensures var (s', es) := Think(s, text);
            InStep(s', Feed(c, es)) &&
            BuiltOf(Feed(c, es)) == if text == "" then BuiltOf(c) else Add(marshal, BuiltOf(c), Thought(text))
  {
    if text != "" && !s.thinkingDone {
      var (s1, closed) := CloseText(s);
      CloseTextInStep(s, c);
      var c1 := Feed(c, closed);
      WriteThinking(marshal, s1, c1, text);
      FeedConcat(c, closed, Think(s1, text).1);
      assert Think(s, text).1 == closed + Think(s1, text).1;
    }
  }

  /** Thinking text arriving while no text block is open. */
  lemma WriteThinking<A>(marshal: A -> Option<string>, s: State, c: Client, text: string)
    requires InStep(s, c) && !s.textStarted && !s.thinkingDone && text != ""
    ensures var (s', es) := Think(s, text);
            InStep(s', Feed(c, es)) && BuiltOf(Feed(c, es)) == Add(marshal, BuiltOf(c), Thought(text))
  {
    var (s', es) := Think(s, text);
    var delta := BlockDelta(s.contentIndex, ThinkingDelta(text));
    if s.thinkingStarted {
      assert es == [delta] && Feed(c, es) == Receive(c, delta);
      UsedIdsReplace(c.blocks, Thinking(Last(c.blocks).text + text));
    } else {
      var start := BlockStart(s.contentIndex, ThinkingStart);
      OpenAndWrite(c, start, delta);
      assert es == [start, delta];
      UsedIdsAppend(c.blocks, Thinking(text));
    }
  }

  /** The block that one delta fills. */
  function Filled(b: StartedBlock, text: string): Block {
    match b
    case ThinkingStart => Thinking(text)
    case TextStart => Text(text)
    case ToolUseStart(id, name) => ToolUse(id, name, text)
  }

  lemma OpenAndWrite(c: Client, start: Event, delta: Event)
    requires c.phase == Idle && start.BlockStart? && delta.BlockDelta? && start.index == delta.index == |c.blocks|
    requires Grow(EmptyBlock(start.block), delta.delta).Some?
    ensures Feed(c, [start, delta]) == c.(phase := Open, blocks := c.blocks + [Filled(start.block, delta.delta.text)])
  {
    var c1, c2 := Receive(c, start), Receive(Receive(c, start), delta);
    FeedConcat(c, [start], [delta]);
    assert [start] + [delta] == [start, delta];
    assert Feed(c, [start]) == c1 && Feed(c1, [delta]) == c2;
    assert "" + delta.delta.text == delta.delta.text;
  }

  lemma SayInStep<A>(marshal: A -> Option<string>, s: State, c: Client, text: string)
    requires InStep(s, c)
    ensures var (s', es) := Say(s, text);
            InStep(s', Feed(c, es)) &&
            BuiltOf(Feed(c, es)) == if text == "" then BuiltOf(c) else Add(marshal, BuiltOf(c), Said(text))
  {
    if text != "" {
      var (s1, closed) := CloseThinking(s);
      CloseThinkingInStep(s, c);
      var c1 := Feed(c, closed);
      WriteText(marshal, s1, c1, text);
      FeedConcat(c, closed, Say(s1, text).1);
      assert Say(s, text).1 == closed + Say(s1, text).1;
    }
  }

  lemma WriteText<A>(marshal: A -> Option<string>, s: State, c: Client, text: string)
    requires InStep(s, c) && !(s.thinkingStarted && !s.thinkingDone) && text != ""
    ensures var (s', es) := Say(s, text);
            InStep(s', Feed(c, es)) && BuiltOf(Feed(c, es)) == Add(marshal, BuiltOf(c), Said(text))
  {
    var (s', es) := Say(s, text);
    var delta := BlockDelta(s.contentIndex, TextDelta(text));
    if s.textStarted {
      assert es == [delta] && Feed(c, es) == Receive(c, delta);
      UsedIdsReplace(c.blocks, Text(Last(c.blocks).text + text));
    } else {
      var start := BlockStart(s.contentIndex, TextStart);
      OpenAndWrite(c, start, delta);
      assert es == [start, delta];
      UsedIdsAppend(c.blocks, Text(text));
    }
    StillOver(c, Feed(c, es));
  }

  /** Closed thinking blocks stay where they are when text arrives. */
  lemma StillOver(c: Client, c': Client)
    requires c.phase == Open ==> c.blocks != [] && Last(c.blocks).Text?
    requires c'.phase == Open && c'.blocks != [] && Last(c'.blocks).Text?
    requires if c.phase == Open then |c'.blocks| == |c.blocks| &&
              c'.blocks[..|c.blocks| - 1] == c.blocks[..|c.blocks| - 1]
             else c'.blocks[..|c'.blocks| - 1] == c.blocks
    ensures ThinkingOver(BuiltOf(c)) <==> ThinkingOver(BuiltOf(c'))
  {
    var n := |c'.blocks| - 1;
    assert forall k | 0 <= k < n :: c'.blocks[k] == c'.blocks[..n][k];
    if c.phase == Open {
      assert forall k | 0 <= k < n :: c.blocks[k] == c.blocks[..n][k];
    }
  }

  /** A whole tool block, while none is open. */
  lemma WriteCall<A>(marshal: A -> Option<string>, s: State, c: Client, tc: ToolCall<A>, json: string)
    requires InStep(s, c) && c.phase == Idle && tc.id !in s.sent && marshal(tc.args) == Some(json)
    ensures var i := s.contentIndex;
            var es := [BlockStart(i, ToolUseStart(tc.id, tc.name)), BlockDelta(i, InputJsonDelta(json)), BlockStop(i)];
            InStep(s.(contentIndex := i + 1, sent := s.sent + {tc.id}), Feed(c, es)) &&
            BuiltOf(Feed(c, es)) == Add(marshal, BuiltOf(c), Called(tc))
  {
    var i := s.contentIndex;
    var start, delta := BlockStart(i, ToolUseStart(tc.id, tc.name)), BlockDelta(i, InputJsonDelta(json));
    OpenAndWrite(c, start, delta);
    FeedConcat(c, [start, delta], [BlockStop(i)]);
    assert [start, delta] + [BlockStop(i)] == [start, delta, BlockStop(i)];
    var c' := Feed(c, [start, delta]);
    assert Feed(c', [BlockStop(i)]) == Receive(c', BlockStop(i));
    UsedIdsAppend(c.blocks, ToolUse(tc.id, tc.name, json));
    OverAppend(c.blocks, ToolUse(tc.id, tc.name, json));
  }

  lemma CallInStep<A>(cfg: Config<A>, s: State, c: Client, tc: ToolCall<A>)
    requires InStep(s, c)
    ensures var (s', es) := Call(cfg, s, tc);
            InStep(s', Feed(c, es)) && BuiltOf(Feed(c, es)) == Add(cfg.marshal, BuiltOf(c), Called(tc))
  {
    assert Feed(c, []) == c;
    hide Feed, CloseThinking, CloseText, UsedIds, ThinkingOver;
    if tc.id !in s.sent {
      var (s1, closed1) := CloseThinking(s);
      CloseThinkingInStep(s, c);
      var c1 := Feed(c, closed1);
      var (s2, closed2) := CloseText(s1);
      CloseTextInStep(s1, c1);
      var c2 := Feed(c1, closed2);
      FeedConcat(c, closed1, closed2);
      assert c2.phase == Idle && c2.blocks == c.blocks;
      if cfg.marshal(tc.args).Some? {
        var json, i := cfg.marshal(tc.args).value, s2.contentIndex;
        WriteCall(cfg.marshal, s2, c2, tc, json);
        FeedConcat(c, closed1 + closed2,
                   [BlockStart(i, ToolUseStart(tc.id, tc.name)), BlockDelta(i, InputJsonDelta(json)), BlockStop(i)]);
      }
    }
  }

  lemma OverAppend(bs: seq<Block>, b: Block)
    requires !b.Thinking?
    ensures ThinkingOver(Built(bs, false)) <==> ThinkingOver(Built(bs + [b], false))
  {
    assert forall k | 0 <= k < |bs| :: (bs + [b])[k] == bs[k];
  }

  lemma {:induction false} CallsInStep<A>(cfg: Config<A>, s: State, c: Client, tcs: seq<ToolCall<A>>)
    requires InStep(s, c)
    ensures var (s', es) := Calls(cfg, s, tcs);
            InStep(s', Feed(c, es)) && BuiltOf(Feed(c, es)) == AddAll(cfg.marshal, BuiltOf(c), CallAtoms(tcs))
    decreases |tcs|
  {
    if tcs != [] {
      var front, tc := tcs[..|tcs| - 1], tcs[|tcs| - 1];
      var (s1, es1) := Calls(cfg, s, front);
      CallsInStep(cfg, s, c, front);
      CallInStep(cfg, s1, Feed(c, es1), tc);
      FeedConcat(c, es1, Call(cfg, s1, tc).1);
      assert CallAtoms(tcs)[..|tcs| - 1] == CallAtoms(front);
    }
  }

  /** The client has seen nothing yet, or is in step with the converter. */
  ghost predicate Related(s: State, c: Client) {
    (s == INITIAL && c == FRESH) || InStep(s, c)
  }

  lemma BeginInStep<A>(cfg: Config<A>, s: State, c: Client, r: Chunk<A>)
    requires Related(s, c)
    ensures var (s', es) := Begin(cfg, s, r);
            InStep(s', Feed(c, es)) && BuiltOf(Feed(c, es)) == BuiltOf(c)
  {
    var (s', es) := Begin(cfg, s, r);
    if s.firstWrite {
      assert Feed(c, es) == Receive(c, es[0]);
      assert UsedIds([]) == {};
    }
  }

  /** One call of Process adds the chunk's atoms. */
  lemma BodyInStep<A>(cfg: Config<A>, s: State, c: Client, r: Chunk<A>)
    requires Related(s, c)
    ensures var (s', es) := Body(cfg, s, r);
            InStep(s', Feed(c, es)) && BuiltOf(Feed(c, es)) == AddAll(cfg.marshal, BuiltOf(c), AtomsOf(r))
  {
    hide Begin, Think, Say, Calls, InStep, Add, Feed;
    var (s1, es1) := Begin(cfg, s, r);
    var (s2, es2) := Think(s1, r.thinking);
    var (s3, es3) := Say(s2, r.content);
    var (s4, es4) := Calls(cfg, s3, r.toolCalls);
    BeginInStep(cfg, s, c, r);
    var c1 := Feed(c, es1);
    ThinkInStep(cfg.marshal, s1, c1, r.thinking);
    var c2 := Feed(c1, es2);
    SayInStep(cfg.marshal, s2, c2, r.content);
    var c3 := Feed(c2, es3);
    CallsInStep(cfg, s3, c3, r.toolCalls);
    FeedConcat(c, es1, es2);
    FeedConcat(c, es1 + es2, es3);
    FeedConcat(c, es1 + es2 + es3, es4);
    var thought: seq<Atom<A>> := if r.thinking == "" then [] else [Thought(r.thinking)];
    var said: seq<Atom<A>> := if r.content == "" then [] else [Said(r.content)];
    AddAllConcat(cfg.marshal, BuiltOf(c), thought + said, CallAtoms(r.toolCalls));
    AddAllConcat(cfg.marshal, BuiltOf(c), thought, said);
    if r.thinking != "" { AddOne(cfg.marshal, BuiltOf(c), Thought(r.thinking)); }
    if r.content != "" { AddOne(cfg.marshal, BuiltOf(c2), Said(r.content)); }
  }

  // ---- Whole runs ---------------------------------------------------------

  /** Before the last chunk of a stream the client is always in step. */
  lemma {:induction false} RunInStep<A>(cfg: Config<A>, rs: seq<Chunk<A>>)
    requires forall k | 0 <= k < |rs| :: !rs[k].done
    ensures var (s, es) := Run(cfg, INITIAL, rs);
            Related(s, Feed(FRESH, es)) && BuiltOf(Feed(FRESH, es)) == Build(cfg.marshal, Atoms(rs))
    decreases |rs|
  {
    hide Body, InStep, Add;
    if rs != [] {
      var front, r := rs[..|rs| - 1], rs[|rs| - 1];
      RunInStep(cfg, front);
      var (s1, es1) := Run(cfg, INITIAL, front);
      var c1 := Feed(FRESH, es1);
      BodyInStep(cfg, s1, c1, r);
      var es2 := Body(cfg, s1, r).1;
      assert Step(cfg, s1, r).1 == es2 by { assert es2 + [] == es2; }
      FeedConcat(FRESH, es1, es2);
      AddAllConcat(cfg.marshal, Built([], false), Atoms(front), AtomsOf(r));
    }
  }

  ghost predicate HasToolUse(bs: seq<Block>) {
    exists k | 0 <= k < |bs| :: bs[k].ToolUse?
  }

  /** The stream's end: the open block, if any, is closed, and the message with it. */
  lemma FinishStops<A>(s: State, c: Client, r: Chunk<A>)
    requires InStep(s, c) && r.done
    ensures Feed(c, Finish(s, r).1) == FinalClient(c.blocks, r)
  {
    var closed := if s.textStarted || (s.thinkingStarted && !s.thinkingDone) then [BlockStop(s.contentIndex)] else [];
    var u := UsageFromMetrics(r.metrics);
    var stop := MapStopReason(r.doneReason, |s.sent| > 0);
    var c1 := Feed(c, closed);
    FeedOne(c, BlockStop(s.contentIndex));
    assert c1.phase == Idle && c1.blocks == c.blocks;
    FeedConcat(c, closed, [MessageDelta(stop, u), MessageStop]);
    FeedConcat(c1, [MessageDelta(stop, u)], [MessageStop]);
    assert [MessageDelta(stop, u)] + [MessageStop] == [MessageDelta(stop, u), MessageStop];
    var c2 := Receive(c1, MessageDelta(stop, u));
    FeedOne(c1, MessageDelta(stop, u));
    FeedOne(c2, MessageStop);
    if HasToolUse(c.blocks) {
      var k :| 0 <= k < |c.blocks| && c.blocks[k].ToolUse?;
      assert c.blocks[k].id in s.sent;
    } else {
      assert s.sent == {};
    }
  }

  /** A stream whose last chunk, and only that one, is done. */
  ghost predicate CompleteStream<A>(rs: seq<Chunk<A>>) {
    rs != [] && forall k | 0 <= k < |rs| :: rs[k].done <==> k == |rs| - 1
  }

  /** A client that has these blocks and has seen the message end with chunk r. */
  ghost function FinalClient<A>(blocks: seq<Block>, r: Chunk<A>): Client {
    Client(Stopped, blocks, MapStopReason(r.doneReason, HasToolUse(blocks)), UsageFromMetrics(r.metrics))
  }

  /** Every complete stream is well formed from message_start to message_stop, and
      leaves the client with exactly the builder's blocks. */
  lemma CompleteStreamIsWellFormed<A>(cfg: Config<A>, rs: seq<Chunk<A>>)
    requires CompleteStream(rs)
    ensures Feed(FRESH, Run(cfg, INITIAL, rs).1) == FinalClient(Build(cfg.marshal, Atoms(rs)).blocks, rs[|rs| - 1])
  {
    hide Body, Finish, InStep, Add;
    var front, r := rs[..|rs| - 1], rs[|rs| - 1];
    RunInStep(cfg, front);
    var (s1, es1) := Run(cfg, INITIAL, front);
    var c1 := Feed(FRESH, es1);
    BodyInStep(cfg, s1, c1, r);
    AddAllConcat(cfg.marshal, Built([], false), Atoms(front), AtomsOf(r));
    var (s2, es2) := Body(cfg, s1, r);
    FinishStops(s2, Feed(c1, es2), r);
    FeedConcat(c1, es2, Finish(s2, r).1);
    FeedConcat(FRESH, es1, Step(cfg, s1, r).1);
  }
}
