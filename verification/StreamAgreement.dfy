/** What the streamed blocks hold, and exactly when they are those of the
    non-streaming converter (ToMessagesResponse of anthropic/anthropic.go). */
module StreamAgreement {
  import opened Results
  import opened StreamTypes
  import opened StreamConverter
  import opened StreamClient

  // ---- The non-streaming converter ----------------------------------------

  datatype ResponseBlock<A> = ThinkingContent(text: string) | TextContent(text: string)
                            | ToolUseContent(id: string, name: string, input: A)

  datatype MessagesResponse<A> = MessagesResponse(content: seq<ResponseBlock<A>>, stopReason: string, usage: Usage)

  function ToolContent<A>(tcs: seq<ToolCall<A>>): (r: seq<ResponseBlock<A>>)
    ensures |r| == |tcs| && forall k | 0 <= k < |r| :: r[k] == ToolUseContent(tcs[k].id, tcs[k].name, tcs[k].args)
  {
    seq(|tcs|, k requires 0 <= k < |tcs| => ToolUseContent(tcs[k].id, tcs[k].name, tcs[k].args))
  }

  function Response<A>(r: Chunk<A>): MessagesResponse<A> {
    MessagesResponse(
      (if r.thinking == "" then [] else [ThinkingContent(r.thinking)]) +
      (if r.content == "" then [] else [TextContent(r.content)]) + ToolContent(r.toolCalls),
      MapStopReason(r.doneReason, |r.toolCalls| > 0), UsageFromMetrics(r.metrics))
  }

  method ToMessagesResponse<A>(r: Chunk<A>) returns (m: MessagesResponse<A>)
    ensures m == Response(r)
  {
    var content := [];
    if r.thinking != "" {
      content := content + [ThinkingContent(r.thinking)];
    }
    if r.content != "" {
      content := content + [TextContent(r.content)];
    }
    ghost var texts := content;
    for k := 0 to |r.toolCalls|
      invariant content == texts + ToolContent(r.toolCalls[..k])
    {
      var tc := r.toolCalls[k];
      content := content + [ToolUseContent(tc.id, tc.name, tc.args)];
    }
    assert r.toolCalls[..|r.toolCalls|] == r.toolCalls;
    var stopReason := MapStopReason(r.doneReason, |r.toolCalls| > 0);
    return MessagesResponse(content, stopReason, UsageFromMetrics(r.metrics));
  }

  // ---- Totals over a message ----------------------------------------------

  function ThoughtPart<A>(a: Atom<A>): string {
    match a case Thought(t) => t case _ => ""
  }

  function SaidPart<A>(a: Atom<A>): string {
    match a case Said(t) => t case _ => ""
  }

  function CallPart<A>(a: Atom<A>): seq<ToolCall<A>> {
    match a case Called(tc) => [tc] case _ => []
  }

  function ThoughtText<A>(atoms: seq<Atom<A>>): string {
    if atoms == [] then ""
    else ThoughtText(atoms[..|atoms| - 1]) + ThoughtPart(atoms[|atoms| - 1])
  }

  function SaidText<A>(atoms: seq<Atom<A>>): string {
    if atoms == [] then ""
    else SaidText(atoms[..|atoms| - 1]) + SaidPart(atoms[|atoms| - 1])
  }

  function CallsOf<A>(atoms: seq<Atom<A>>): seq<ToolCall<A>> {
    if atoms == [] then []
    else CallsOf(atoms[..|atoms| - 1]) + CallPart(atoms[|atoms| - 1])
  }

  function BlockText(b: Block): string {
    match b case Text(t) => t case _ => ""
  }

  function TextOf(bs: seq<Block>): string {
    if bs == [] then "" else TextOf(bs[..|bs| - 1]) + BlockText(Last(bs))
  }

  // ---- What every stream keeps --------------------------------------------

  /** No visible text is lost, added or reordered, whatever else happens. */
  lemma {:induction false} TextIsKept<A>(marshal: A -> Option<string>, atoms: seq<Atom<A>>)
    ensures TextOf(Build(marshal, atoms).blocks) == SaidText(atoms)
    decreases |atoms|
  {
    if atoms != [] {
      var front, x := atoms[..|atoms| - 1], atoms[|atoms| - 1];
      TextIsKept(marshal, front);
      var b := Build(marshal, front);
      TextOfAdd(marshal, b, x);
    }
  }

  lemma TextOfAdd<A>(marshal: A -> Option<string>, b: Built, x: Atom<A>)
    ensures TextOf(Add(marshal, b, x).blocks) == TextOf(b.blocks) + SaidPart(x)
  {
    hide TextOf, ThinkingOver, UsedIds;
    var bs := b.blocks;
    match x
    case Thought(t) =>
      TextOfAppend(bs, Thinking(t));
      if bs != [] && Last(bs).Thinking? { TextOfReplace(bs, Thinking(Last(bs).text + t)); }
    case Said(t) =>
      TextOfAppend(bs, Text(t));
      if bs != [] && Last(bs).Text? { TextOfReplace(bs, Text(Last(bs).text + t)); }
    case Called(tc) =>
      if marshal(tc.args).Some? { TextOfAppend(bs, ToolUse(tc.id, tc.name, marshal(tc.args).value)); }
  }

  lemma TextOfAppend(bs: seq<Block>, b: Block)
    ensures TextOf(bs + [b]) == TextOf(bs) + BlockText(b)
  {
    assert (bs + [b])[..|bs|] == bs;
  }

  lemma TextOfReplace(bs: seq<Block>, b: Block)
    requires bs != []
    ensures TextOf(ReplaceLast(bs, b)) == TextOf(bs[..|bs| - 1]) + BlockText(b)
    ensures TextOf(bs) == TextOf(bs[..|bs| - 1]) + BlockText(Last(bs))
  {
    TextOfAppend(bs[..|bs| - 1], b);
  }

  /** A tool call id is opened at most once, and thinking has at most one block. */
  ghost predicate OneBlockEach(bs: seq<Block>) {
    && (forall i, j | 0 <= i < j < |bs| && bs[i].ToolUse? && bs[j].ToolUse? :: bs[i].id != bs[j].id)
    && (forall i, j | 0 <= i < j < |bs| :: !(bs[i].Thinking? && bs[j].Thinking?))
  }

  lemma {:induction false} BlocksAreUnique<A>(marshal: A -> Option<string>, atoms: seq<Atom<A>>)
    ensures OneBlockEach(Build(marshal, atoms).blocks)
    decreases |atoms|
  {
    if atoms != [] {
      BlocksAreUnique(marshal, atoms[..|atoms| - 1]);
      AddKeepsUnique(marshal, Build(marshal, atoms[..|atoms| - 1]), atoms[|atoms| - 1]);
    }
  }

  lemma AddKeepsUnique<A>(marshal: A -> Option<string>, b: Built, x: Atom<A>)
    requires OneBlockEach(b.blocks)
    ensures OneBlockEach(Add(marshal, b, x).blocks)
  {
    var bs, bs' := b.blocks, Add(marshal, b, x).blocks;
    forall i, j | 0 <= i < j < |bs'|
      ensures bs'[i].ToolUse? && bs'[j].ToolUse? ==> bs'[i].id != bs'[j].id
      ensures !(bs'[i].Thinking? && bs'[j].Thinking?)
    {
      assert i < |bs| - 1 ==> bs'[i] == bs[i];
      if x.Called? && j == |bs| && bs[i].ToolUse? {
        assert bs[i].id in UsedIds(bs);
      }
    }
  }

  // ---- Order --------------------------------------------------------------

  function Rank<A>(a: Atom<A>): nat {
    match a case Thought(_) => 0 case Said(_) => 1 case Called(_) => 2
  }

  function BlockRank(b: Block): nat {
    match b case Thinking(_) => 0 case Text(_) => 1 case ToolUse(_, _, _) => 2
  }

  /** Thinking before text before tool calls, each id once, arguments that encode. */
  ghost predicate InOrder<A>(marshal: A -> Option<string>, atoms: seq<Atom<A>>) {
    && (forall i, j | 0 <= i < j < |atoms| :: Rank(atoms[i]) <= Rank(atoms[j]))
    && (forall i, j | 0 <= i < j < |atoms| && atoms[i].Called? && atoms[j].Called? ::
          atoms[i].call.id != atoms[j].call.id)
    && (forall i | 0 <= i < |atoms| && atoms[i].Called? :: marshal(atoms[i].call.args).Some?)
  }

  /** Atoms of a chunk are never empty texts. */
  ghost predicate Spoken<A>(atoms: seq<Atom<A>>) {
    forall k | 0 <= k < |atoms| ::
      match atoms[k] case Thought(t) => t != "" case Said(t) => t != "" case Called(_) => true
  }

  ghost predicate AllEncode<A>(marshal: A -> Option<string>, tcs: seq<ToolCall<A>>) {
    forall k | 0 <= k < |tcs| :: marshal(tcs[k].args).Some?
  }

  function CallBlocks<A>(marshal: A -> Option<string>, tcs: seq<ToolCall<A>>): (r: seq<Block>)
    requires AllEncode(marshal, tcs)
    ensures |r| == |tcs|
    ensures forall k | 0 <= k < |r| :: r[k] == ToolUse(tcs[k].id, tcs[k].name, marshal(tcs[k].args).value)
  {
    seq(|tcs|, k requires 0 <= k < |tcs| => ToolUse(tcs[k].id, tcs[k].name, marshal(tcs[k].args).value))
  }

  /** One block of all the thinking, one of all the text, one for each tool call. */
  function Canonical<A>(marshal: A -> Option<string>, thinking: string, text: string, tcs: seq<ToolCall<A>>): seq<Block>
    requires AllEncode(marshal, tcs)
  {
    (if thinking == "" then [] else [Thinking(thinking)]) + (if text == "" then [] else [Text(text)]) +
    CallBlocks(marshal, tcs)
  }

  /** The streamed blocks are the canonical ones. */
  ghost predicate StreamsCanonically<A>(marshal: A -> Option<string>, atoms: seq<Atom<A>>) {
    AllEncode(marshal, CallsOf(atoms)) &&
    Build(marshal, atoms).blocks == Canonical(marshal, ThoughtText(atoms), SaidText(atoms), CallsOf(atoms))
  }

  // ---- In order: the builder makes the canonical blocks --------------------

  lemma InOrderFront<A>(marshal: A -> Option<string>, atoms: seq<Atom<A>>)
    requires atoms != [] && InOrder(marshal, atoms) && Spoken(atoms)
    ensures InOrder(marshal, atoms[..|atoms| - 1]) && Spoken(atoms[..|atoms| - 1])
  {}

  /** Atoms of rank at most r contribute nothing to the later parts. */
  lemma {:induction false} NothingAbove<A>(atoms: seq<Atom<A>>, r: nat)
    requires forall k | 0 <= k < |atoms| :: Rank(atoms[k]) <= r
    ensures r < 1 ==> SaidText(atoms) == ""
    ensures r < 2 ==> CallsOf(atoms) == []
    decreases |atoms|
  {
    if atoms != [] {
      NothingAbove(atoms[..|atoms| - 1], r);
      assert Rank(atoms[|atoms| - 1]) <= r;
    }
  }

  lemma {:induction false} EncodedCalls<A>(marshal: A -> Option<string>, atoms: seq<Atom<A>>)
    requires forall i | 0 <= i < |atoms| && atoms[i].Called? :: marshal(atoms[i].call.args).Some?
    ensures AllEncode(marshal, CallsOf(atoms))
    ensures forall tc | tc in CallsOf(atoms) :: Called(tc) in atoms
    decreases |atoms|
  {
    if atoms != [] {
      EncodedCalls(marshal, atoms[..|atoms| - 1]);
      assert atoms == atoms[..|atoms| - 1] + [atoms[|atoms| - 1]];
    }
  }

  /** Whether the builder's last block can grow after these atoms, in order. */
  predicate GrowsAfter<A>(atoms: seq<Atom<A>>) {
    atoms != [] && !atoms[|atoms| - 1].Called?
  }

  lemma AddThought<A>(marshal: A -> Option<string>, b: Built, thinking: string, t: string)
    requires b.blocks == Canonical(marshal, thinking, "", []) && b.growing == (thinking != "") && t != ""
    ensures Add(marshal, b, Thought(t)) == Built(Canonical(marshal, thinking + t, "", []), true)
  {
    assert thinking == "" ==> thinking + t == t;
  }

  lemma AddSaid<A>(marshal: A -> Option<string>, b: Built, thinking: string, text: string, t: string)
    requires b.blocks == Canonical(marshal, thinking, text, []) && (text != "" ==> b.growing) && t != ""
    ensures Add(marshal, b, Said(t)) == Built(Canonical(marshal, thinking, text + t, []), true)
  {
    assert text == "" ==> text + t == t;
  }

  lemma AddCalled<A>(marshal: A -> Option<string>, b: Built, thinking: string, text: string, tcs: seq<ToolCall<A>>,
          tc: ToolCall<A>)
    requires AllEncode(marshal, tcs) && marshal(tc.args).Some? && forall k | 0 <= k < |tcs| :: tcs[k].id != tc.id
    requires b.blocks == Canonical(marshal, thinking, text, tcs)
    ensures AllEncode(marshal, tcs + [tc])
    ensures Add(marshal, b, Called(tc)) == Built(Canonical(marshal, thinking, text, tcs + [tc]), false)
  {
    var n := |b.blocks| - |tcs|;
    forall k | 0 <= k < |b.blocks| && b.blocks[k].ToolUse? ensures b.blocks[k].id != tc.id {
      assert b.blocks[k] == CallBlocks(marshal, tcs)[k - n];
    }
    assert CallBlocks(marshal, tcs + [tc]) == CallBlocks(marshal, tcs) +
      [ToolUse(tc.id, tc.name, marshal(tc.args).value)];
  }

  lemma {:induction false} InOrderIsCanonical<A>(marshal: A -> Option<string>, atoms: seq<Atom<A>>)
    requires InOrder(marshal, atoms) && Spoken(atoms)
    ensures StreamsCanonically(marshal, atoms) && Build(marshal, atoms).growing == GrowsAfter(atoms)
    decreases |atoms|
  {
    hide Add, Canonical;
    EncodedCalls(marshal, atoms);
    if atoms == [] {
      EmptyIsCanonical(marshal);
    } else {
      var front, x := atoms[..|atoms| - 1], atoms[|atoms| - 1];
      InOrderFront(marshal, atoms);
      InOrderIsCanonical(marshal, front);
      assert forall k | 0 <= k < |front| :: front[k] == atoms[k];
      NothingAbove(front, Rank(x));
      var b, thinking, text := Build(marshal, front), ThoughtText(front), SaidText(front);
      match x
      case Thought(t) =>
        FrontThinks(marshal, atoms);
        AddThought(marshal, b, thinking, t);
        assert ThoughtText(atoms) == thinking + t && SaidText(atoms) == "" && CallsOf(atoms) == [];
      case Said(t) =>
        AddSaid(marshal, b, thinking, text, t);
        assert ThoughtText(atoms) == thinking && SaidText(atoms) == text + t && CallsOf(atoms) == [];
      case Called(tc) =>
        FreshCall(marshal, atoms);
        AddCalled(marshal, b, thinking, text, CallsOf(front), tc);
        assert ThoughtText(atoms) == thinking && SaidText(atoms) == text && CallsOf(atoms) == CallsOf(front) + [tc];
    }
  }

  lemma FreshCall<A>(marshal: A -> Option<string>, atoms: seq<Atom<A>>)
    requires atoms != [] && InOrder(marshal, atoms) && atoms[|atoms| - 1].Called?
    ensures var front, tc := CallsOf(atoms[..|atoms| - 1]), atoms[|atoms| - 1].call;
            AllEncode(marshal, front) && marshal(tc.args).Some? && forall k | 0 <= k < |front| :: front[k].id != tc.id
  {
    var front, tc := atoms[..|atoms| - 1], atoms[|atoms| - 1].call;
    EncodedCalls(marshal, front);
    forall k | 0 <= k < |CallsOf(front)| ensures CallsOf(front)[k].id != tc.id {
      assert CallsOf(front)[k] in CallsOf(front);
      var i :| 0 <= i < |front| && front[i] == Called(CallsOf(front)[k]);
    }
  }

  lemma EmptyIsCanonical<A>(marshal: A -> Option<string>)
    ensures Canonical(marshal, "", "", []) == []
  {}

  /** In order, thinking is preceded only by thinking. */
  lemma FrontThinks<A>(marshal: A -> Option<string>, atoms: seq<Atom<A>>)
    requires atoms != [] && InOrder(marshal, atoms) && Spoken(atoms) && atoms[|atoms| - 1].Thought?
    ensures GrowsAfter(atoms[..|atoms| - 1]) <==> ThoughtText(atoms[..|atoms| - 1]) != ""
  {
    var front := atoms[..|atoms| - 1];
    if front != [] {
      assert Rank(front[|front| - 1]) <= 0;
      assert ThoughtText(front) == ThoughtText(front[..|front| - 1]) + front[|front| - 1].text;
    }
  }

  // ---- Canonical blocks: the atoms were in order ---------------------------

  /** How much thinking and how many calls there are; text never gets lost. */
  function Weight<A>(atoms: seq<Atom<A>>): nat {
    if atoms == [] then 0 else Weight(atoms[..|atoms| - 1]) + AtomWeight(atoms[|atoms| - 1])
  }

  function AtomWeight<A>(a: Atom<A>): nat {
    match a case Thought(t) => |t| case Said(_) => 0 case Called(_) => 1
  }

  function BlocksWeight(bs: seq<Block>): nat {
    if bs == [] then 0 else BlocksWeight(bs[..|bs| - 1]) + BlockWeight(Last(bs))
  }

  function BlockWeight(b: Block): nat {
    match b case Thinking(t) => |t| case Text(_) => 0 case ToolUse(_, _, _) => 1
  }

  /** The builder takes the atom in: it does not drop it. */
  ghost predicate Takes<A>(marshal: A -> Option<string>, b: Built, a: Atom<A>) {
    match a
    case Thought(_) => !ThinkingOver(b)
    case Said(_) => true
    case Called(tc) => tc.id !in UsedIds(b.blocks) && marshal(tc.args).Some?
  }

  lemma WeightAppend(bs: seq<Block>, b: Block)
    ensures BlocksWeight(bs + [b]) == BlocksWeight(bs) + BlockWeight(b)
  {
    assert (bs + [b])[..|bs|] == bs;
  }

  lemma AddWeight<A>(marshal: A -> Option<string>, b: Built, a: Atom<A>)
    ensures BlocksWeight(Add(marshal, b, a).blocks)
         == BlocksWeight(b.blocks) + (if Takes(marshal, b, a) then AtomWeight(a) else 0)
  {
    hide BlocksWeight, ThinkingOver, UsedIds;
    var bs := b.blocks;
    match a
    case Thought(t) =>
      WeightAppend(bs, Thinking(t));
      if bs != [] { WeightReplace(bs, if Last(bs).Thinking? then Thinking(Last(bs).text + t) else Last(bs)); }
    case Said(t) =>
      WeightAppend(bs, Text(t));
      if bs != [] { WeightReplace(bs, if Last(bs).Text? then Text(Last(bs).text + t) else Last(bs)); }
    case Called(tc) =>
      if marshal(tc.args).Some? { WeightAppend(bs, ToolUse(tc.id, tc.name, marshal(tc.args).value)); }
  }

  lemma WeightReplace(bs: seq<Block>, b: Block)
    requires bs != []
    ensures BlocksWeight(ReplaceLast(bs, b)) + BlockWeight(Last(bs)) == BlocksWeight(bs) + BlockWeight(b)
  {
    WeightAppend(bs[..|bs| - 1], b);
  }

  lemma {:induction false} BuildWeight<A>(marshal: A -> Option<string>, atoms: seq<Atom<A>>)
    ensures BlocksWeight(Build(marshal, atoms).blocks) <= Weight(atoms)
    decreases |atoms|
  {
    if atoms != [] {
      BuildWeight(marshal, atoms[..|atoms| - 1]);
      AddWeight(marshal, Build(marshal, atoms[..|atoms| - 1]), atoms[|atoms| - 1]);
    }
  }

  /** Nothing was dropped on the way. */
  ghost predicate NothingLost<A>(marshal: A -> Option<string>, atoms: seq<Atom<A>>) {
    BlocksWeight(Build(marshal, atoms).blocks) == Weight(atoms)
  }

  lemma NothingLostFront<A>(marshal: A -> Option<string>, atoms: seq<Atom<A>>)
    requires atoms != [] && Spoken(atoms) && NothingLost(marshal, atoms)
    ensures NothingLost(marshal, atoms[..|atoms| - 1])
    ensures Takes(marshal, Build(marshal, atoms[..|atoms| - 1]), atoms[|atoms| - 1])
  {
    BuildWeight(marshal, atoms[..|atoms| - 1]);
    AddWeight(marshal, Build(marshal, atoms[..|atoms| - 1]), atoms[|atoms| - 1]);
  }

  lemma {:induction false} CanonicalWeight<A>(marshal: A -> Option<string>, atoms: seq<Atom<A>>)
    requires AllEncode(marshal, CallsOf(atoms))
    ensures BlocksWeight(Canonical(marshal, ThoughtText(atoms), SaidText(atoms), CallsOf(atoms))) == Weight(atoms)
  {
    TotalsWeight(atoms);
    CanonicalBlocksWeight(marshal, ThoughtText(atoms), SaidText(atoms), CallsOf(atoms));
  }

  lemma {:induction false} TotalsWeight<A>(atoms: seq<Atom<A>>)
    ensures Weight(atoms) == |ThoughtText(atoms)| + |CallsOf(atoms)|
    decreases |atoms|
  {
    if atoms != [] {
      TotalsWeight(atoms[..|atoms| - 1]);
    }
  }

  lemma CanonicalNext<A>(marshal: A -> Option<string>, thinking: string, text: string, tcs: seq<ToolCall<A>>)
    requires AllEncode(marshal, tcs) && tcs != []
    ensures var front, tc := tcs[..|tcs| - 1], tcs[|tcs| - 1];
            AllEncode(marshal, front) &&
            Canonical(marshal, thinking, text, tcs)
              == Canonical(marshal, thinking, text, front) + [ToolUse(tc.id, tc.name, marshal(tc.args).value)]
  {
    var front, tc := tcs[..|tcs| - 1], tcs[|tcs| - 1];
    assert CallBlocks(marshal, tcs) == CallBlocks(marshal, front) + [ToolUse(tc.id, tc.name, marshal(tc.args).value)];
  }

  lemma {:induction false} CanonicalBlocksWeight<A>(marshal: A -> Option<string>, thinking: string, text: string,
          tcs: seq<ToolCall<A>>)
    requires AllEncode(marshal, tcs)
    ensures BlocksWeight(Canonical(marshal, thinking, text, tcs)) == |thinking| + |tcs|
    decreases |tcs|
  {
    if tcs == [] {
      WeightAppend([], Thinking(thinking));
      WeightAppend([], Text(text));
      WeightAppend([Thinking(thinking)], Text(text));
      assert [] + [Thinking(thinking)] == [Thinking(thinking)] && [] + [Text(text)] == [Text(text)];
    } else {
      hide BlocksWeight;
      var front, tc := tcs[..|tcs| - 1], tcs[|tcs| - 1];
      CanonicalBlocksWeight(marshal, thinking, text, front);
      WeightAppend(Canonical(marshal, thinking, text, front), ToolUse(tc.id, tc.name, marshal(tc.args).value));
      CanonicalNext(marshal, thinking, text, tcs);
    }
  }

  ghost predicate RanksRise(bs: seq<Block>) {
    forall i, j | 0 <= i < j < |bs| :: BlockRank(bs[i]) <= BlockRank(bs[j])
  }

  /** Block b shows that atom a was taken: same kind, and for a call the same id. */
  predicate Shows<A>(b: Block, a: Atom<A>) {
    BlockRank(b) == Rank(a) && (a.Called? ==> b.id == a.call.id)
  }

  /** Every atom shows up in some block. */
  ghost predicate AllShown<A>(bs: seq<Block>, atoms: seq<Atom<A>>) {
    forall i | 0 <= i < |atoms| :: exists k | 0 <= k < |bs| :: Shows(bs[k], atoms[i])
  }

  /** A taken atom shows in the last block, and all blocks keep their kinds and ids. */
  lemma AddShows<A>(marshal: A -> Option<string>, b: Built, a: Atom<A>)
    requires Takes(marshal, b, a)
    ensures var bs, bs' := b.blocks, Add(marshal, b, a).blocks;
            bs' != [] && Shows(Last(bs'), a) && |bs| <= |bs'| &&
            forall k | 0 <= k < |bs| :: BlockRank(bs[k]) == BlockRank(bs'[k]) && (bs[k].ToolUse? ==> bs'[k] == bs[k])
  {}

  lemma {:induction false} TakenInOrder<A>(marshal: A -> Option<string>, atoms: seq<Atom<A>>)
    requires Spoken(atoms) && NothingLost(marshal, atoms) && RanksRise(Build(marshal, atoms).blocks)
    ensures InOrder(marshal, atoms) && AllShown(Build(marshal, atoms).blocks, atoms)
    decreases |atoms|
  {
    hide Add, UsedIds, ThinkingOver;
    if atoms != [] {
      var front, x := atoms[..|atoms| - 1], atoms[|atoms| - 1];
      NothingLostFront(marshal, atoms);
      var b := Build(marshal, front);
      AddShows(marshal, b, x);
      TakenInOrder(marshal, front);
      ExtendOrder(marshal, b, front, x);
      assert atoms == front + [x];
    }
  }

  lemma ExtendOrder<A>(marshal: A -> Option<string>, b: Built, front: seq<Atom<A>>, x: Atom<A>)
    requires InOrder(marshal, front) && AllShown(b.blocks, front) && Takes(marshal, b, x)
    requires RanksRise(Add(marshal, b, x).blocks)
    ensures InOrder(marshal, front + [x]) && AllShown(Add(marshal, b, x).blocks, front + [x])
  {
    hide Add, ThinkingOver;
    AddShows(marshal, b, x);
    var bs, bs', atoms := b.blocks, Add(marshal, b, x).blocks, front + [x];
    forall i | 0 <= i < |front|
      ensures Rank(front[i]) <= Rank(x)
      ensures front[i].Called? && x.Called? ==> front[i].call.id != x.call.id
      ensures exists k | 0 <= k < |bs'| :: Shows(bs'[k], atoms[i])
    {
      var k :| 0 <= k < |bs| && Shows(bs[k], front[i]);
      assert Shows(bs'[k], atoms[i]);
      if front[i].Called? {
        assert bs[k].id in UsedIds(bs);
      }
    }
    assert Shows(bs'[|bs'| - 1], atoms[|front|]);
  }

  /** The streamed blocks are one block of all the thinking, one of all the text
      and one for each tool call, in that order, exactly when the model produced
      them in that order, with distinct ids and arguments that encode. */
  lemma CanonicalIffInOrder<A>(marshal: A -> Option<string>, atoms: seq<Atom<A>>)
    requires Spoken(atoms)
    ensures StreamsCanonically(marshal, atoms) <==> InOrder(marshal, atoms)
  {
    if InOrder(marshal, atoms) {
      InOrderIsCanonical(marshal, atoms);
    }
    if StreamsCanonically(marshal, atoms) {
      CanonicalWeight(marshal, atoms);
      TakenInOrder(marshal, atoms);
    }
  }

  // ---- Streaming against not streaming -------------------------------------

  function AllThinking<A>(rs: seq<Chunk<A>>): string {
    if rs == [] then "" else AllThinking(rs[..|rs| - 1]) + rs[|rs| - 1].thinking
  }

  function AllContent<A>(rs: seq<Chunk<A>>): string {
    if rs == [] then "" else AllContent(rs[..|rs| - 1]) + rs[|rs| - 1].content
  }

  function AllCalls<A>(rs: seq<Chunk<A>>): seq<ToolCall<A>> {
    if rs == [] then [] else AllCalls(rs[..|rs| - 1]) + rs[|rs| - 1].toolCalls
  }

  /** The chunks put together as one message, with the last one's metrics. */
  function Concatenated<A>(rs: seq<Chunk<A>>): Chunk<A>
    requires rs != []
  {
    var last := rs[|rs| - 1];
    Chunk(AllThinking(rs), AllContent(rs), AllCalls(rs), last.done, last.doneReason, last.metrics)
  }

  lemma Assoc<T>(a: seq<T>, b: seq<T>, c: seq<T>)
    ensures (a + b) + c == a + (b + c)
  {}

  lemma Snoc<T>(x: seq<T>, y: seq<T>)
    requires y != []
    ensures y == y[..|y| - 1] + [y[|y| - 1]] && x + y == (x + y[..|y| - 1]) + [y[|y| - 1]]
  {}

  /** What one more atom adds to the totals. */
  lemma TotalsNext<A>(x: seq<Atom<A>>, a: Atom<A>)
    ensures ThoughtText(x + [a]) == ThoughtText(x) + ThoughtPart(a)
    ensures SaidText(x + [a]) == SaidText(x) + SaidPart(a)
    ensures CallsOf(x + [a]) == CallsOf(x) + CallPart(a)
  {
    assert (x + [a])[..|x|] == x;
  }

  lemma {:induction false} ThoughtConcat<A>(x: seq<Atom<A>>, y: seq<Atom<A>>)
    ensures ThoughtText(x + y) == ThoughtText(x) + ThoughtText(y)
    decreases |y|
  {
    if y == [] {
      assert x + y == x;
    } else {
      var front, last := y[..|y| - 1], y[|y| - 1];
      ThoughtConcat(x, front);
      hide ThoughtText, ThoughtPart;
      Snoc(x, y);
      TotalsNext(front, last);
      TotalsNext(x + front, last);
      Assoc(ThoughtText(x), ThoughtText(front), ThoughtPart(last));
    }
  }

  lemma {:induction false} SaidConcat<A>(x: seq<Atom<A>>, y: seq<Atom<A>>)
    ensures SaidText(x + y) == SaidText(x) + SaidText(y)
    decreases |y|
  {
    if y == [] {
      assert x + y == x;
    } else {
      var front, last := y[..|y| - 1], y[|y| - 1];
      SaidConcat(x, front);
      hide SaidText, SaidPart;
      Snoc(x, y);
      TotalsNext(front, last);
      TotalsNext(x + front, last);
      Assoc(SaidText(x), SaidText(front), SaidPart(last));
    }
  }

  lemma {:induction false} CallsConcat<A>(x: seq<Atom<A>>, y: seq<Atom<A>>)
    ensures CallsOf(x + y) == CallsOf(x) + CallsOf(y)
    decreases |y|
  {
    if y == [] {
      assert x + y == x;
    } else {
      var front, last := y[..|y| - 1], y[|y| - 1];
      CallsConcat(x, front);
      hide CallsOf, CallPart;
      Snoc(x, y);
      TotalsNext(front, last);
      TotalsNext(x + front, last);
      Assoc(CallsOf(x), CallsOf(front), CallPart(last));
    }
  }

  lemma AtomsConcat<A>(x: seq<Atom<A>>, y: seq<Atom<A>>)
    ensures ThoughtText(x + y) == ThoughtText(x) + ThoughtText(y)
    ensures SaidText(x + y) == SaidText(x) + SaidText(y)
    ensures CallsOf(x + y) == CallsOf(x) + CallsOf(y)
  {
    hide ThoughtText, SaidText, CallsOf;
    ThoughtConcat(x, y);
    SaidConcat(x, y);
    CallsConcat(x, y);
  }

  /** The totals of nothing and of a single text. */
  lemma SmallTotals<A>(t: string)
    ensures var none: seq<Atom<A>> := [];
            ThoughtText(none) == "" && SaidText(none) == "" && CallsOf(none) == []
    ensures var one: seq<Atom<A>> := [Thought(t)];
            ThoughtText(one) == t && SaidText(one) == "" && CallsOf(one) == []
    ensures var one: seq<Atom<A>> := [Said(t)];
            ThoughtText(one) == "" && SaidText(one) == t && CallsOf(one) == []
  {
    var thought: seq<Atom<A>>, said: seq<Atom<A>> := [Thought(t)], [Said(t)];
    assert thought[..0] == [] && said[..0] == [];
  }

  lemma {:induction false} CallAtomsTotals<A>(tcs: seq<ToolCall<A>>)
    ensures ThoughtText(CallAtoms(tcs)) == "" && SaidText(CallAtoms(tcs)) == "" && CallsOf(CallAtoms(tcs)) == tcs
    decreases |tcs|
  {
    if tcs != [] {
      hide ThoughtText, SaidText, CallsOf;
      var front, tc := tcs[..|tcs| - 1], tcs[|tcs| - 1];
      CallAtomsTotals(front);
      assert tcs == front + [tc] && CallAtoms(tcs) == CallAtoms(front) + [Called(tc)];
      TotalsNext(CallAtoms(front), Called(tc));
    }
  }

  lemma ChunkTotals<A>(r: Chunk<A>)
    ensures ThoughtText(AtomsOf(r)) == r.thinking && SaidText(AtomsOf(r)) == r.content &&
              CallsOf(AtomsOf(r)) == r.toolCalls
  {
    var thought: seq<Atom<A>> := if r.thinking == "" then [] else [Thought(r.thinking)];
    var said: seq<Atom<A>> := if r.content == "" then [] else [Said(r.content)];
    hide ThoughtText, SaidText, CallsOf;
    AtomsConcat(thought, said);
    AtomsConcat(thought + said, CallAtoms(r.toolCalls));
    CallAtomsTotals(r.toolCalls);
    SmallTotals<A>(r.thinking);
    SmallTotals<A>(r.content);
  }

  /** The atoms add up to the concatenated message, and none is empty. */
  lemma {:induction false} StreamTotals<A>(rs: seq<Chunk<A>>)
    ensures ThoughtText(Atoms(rs)) == AllThinking(rs) && SaidText(Atoms(rs)) == AllContent(rs)
    ensures CallsOf(Atoms(rs)) == AllCalls(rs) && Spoken(Atoms(rs))
    decreases |rs|
  {
    hide ThoughtText, SaidText, CallsOf;
    if rs == [] {
      SmallTotals<A>("");
    } else {
      StreamTotals(rs[..|rs| - 1]);
      ChunkTotals(rs[|rs| - 1]);
      AtomsConcat(Atoms(rs[..|rs| - 1]), AtomsOf(rs[|rs| - 1]));
    }
  }

  /** Whatever order a complete stream comes in, its text blocks hold all the text,
      no tool id has two blocks and there is at most one thinking block. */
  lemma StreamKeepsText<A>(cfg: Config<A>, rs: seq<Chunk<A>>)
    requires CompleteStream(rs)
    ensures var c := Feed(FRESH, Run(cfg, INITIAL, rs).1);
            c.phase == Stopped && TextOf(c.blocks) == AllContent(rs) && OneBlockEach(c.blocks)
  {
    hide Run, Feed, Build;
    CompleteStreamIsWellFormed(cfg, rs);
    TextIsKept(cfg.marshal, Atoms(rs));
    StreamTotals(rs);
    BlocksAreUnique(cfg.marshal, Atoms(rs));
  }

  /** One block as the response's JSON shows it. */
  ghost predicate SameBlock<A>(marshal: A -> Option<string>, c: ResponseBlock<A>, b: Block) {
    match c
    case ThinkingContent(t) => b == Thinking(t)
    case TextContent(t) => b == Text(t)
    case ToolUseContent(id, name, input) => marshal(input).Some? && b == ToolUse(id, name, marshal(input).value)
  }

  /** A client ends up with this response: blocks, stop reason and usage. */
  ghost predicate Agrees<A>(marshal: A -> Option<string>, m: MessagesResponse<A>, c: Client) {
    && c.phase == Stopped
    && |c.blocks| == |m.content| && (forall k | 0 <= k < |c.blocks| :: SameBlock(marshal, m.content[k], c.blocks[k]))
    && c.stopReason == m.stopReason && c.usage == m.usage
  }

  lemma ContentAt<A>(marshal: A -> Option<string>, r: Chunk<A>, k: nat, b: Block)
    requires AllEncode(marshal, r.toolCalls) && k < |Response(r).content|
    ensures var want := Canonical(marshal, r.thinking, r.content, r.toolCalls);
            |want| == |Response(r).content| && (SameBlock(marshal, Response(r).content[k], b) <==> b == want[k])
  {
    hide CallBlocks, ToolContent;
  }

  lemma CallContentAt<A>(r: Chunk<A>, k: nat)
    requires k < |r.toolCalls|
    ensures var n := |Response(r).content| - |r.toolCalls|;
            n >= 0 && Response(r).content[n + k] == ToolUseContent(r.toolCalls[k].id, r.toolCalls[k].name,
              r.toolCalls[k].args)
  {
    hide ToolContent;
  }

  /** The response's blocks are the canonical ones, if its arguments encode. */
  lemma ResponseIsCanonical<A>(marshal: A -> Option<string>, r: Chunk<A>, blocks: seq<Block>)
    ensures (|blocks| == |Response(r).content| &&
             forall k | 0 <= k < |blocks| :: SameBlock(marshal, Response(r).content[k], blocks[k]))
       <==> (AllEncode(marshal, r.toolCalls) && blocks == Canonical(marshal, r.thinking, r.content, r.toolCalls))
  {
    hide Response, Canonical;
    var content := Response(r).content;
    if |blocks| == |content| && forall k | 0 <= k < |blocks| :: SameBlock(marshal, content[k], blocks[k]) {
      forall k | 0 <= k < |r.toolCalls| ensures marshal(r.toolCalls[k].args).Some? {
        CallContentAt(r, k);
        var at := |content| - |r.toolCalls| + k;
        assert SameBlock(marshal, content[at], blocks[at]);
      }
      SameLength(marshal, r);
      forall k | 0 <= k < |blocks| ensures blocks[k] == Canonical(marshal, r.thinking, r.content, r.toolCalls)[k] {
        ContentAt(marshal, r, k, blocks[k]);
      }
    }
    if AllEncode(marshal, r.toolCalls) && blocks == Canonical(marshal, r.thinking, r.content, r.toolCalls) {
      SameLength(marshal, r);
      forall k | 0 <= k < |blocks| ensures SameBlock(marshal, content[k], blocks[k]) {
        ContentAt(marshal, r, k, blocks[k]);
      }
    }
  }

  lemma SameLength<A>(marshal: A -> Option<string>, r: Chunk<A>)
    requires AllEncode(marshal, r.toolCalls)
    ensures |Canonical(marshal, r.thinking, r.content, r.toolCalls)| == |Response(r).content|
  {
    hide CallBlocks, ToolContent;
  }

  lemma CanonicalHasToolUse<A>(marshal: A -> Option<string>, thinking: string, text: string, tcs: seq<ToolCall<A>>)
    requires AllEncode(marshal, tcs)
    ensures HasToolUse(Canonical(marshal, thinking, text, tcs)) <==> |tcs| > 0
  {
    var bs := Canonical(marshal, thinking, text, tcs);
    if tcs != [] {
      assert bs[|bs| - 1] == CallBlocks(marshal, tcs)[|tcs| - 1];
    }
  }

  /** A complete stream leaves its client with what ToMessagesResponse makes of
      the concatenated message - blocks, stop reason and usage - exactly when the
      model thought before it spoke and spoke before it called, with distinct
      tool ids and arguments that encode. */
  lemma StreamAgreesIffInOrder<A>(cfg: Config<A>, rs: seq<Chunk<A>>)
    requires CompleteStream(rs)
    ensures Agrees(cfg.marshal, Response(Concatenated(rs)), Feed(FRESH, Run(cfg, INITIAL, rs).1))
       <==> InOrder(cfg.marshal, Atoms(rs))
  {
    hide Run, Feed, Build, Canonical;
    var r, blocks := Concatenated(rs), Build(cfg.marshal, Atoms(rs)).blocks;
    CompleteStreamIsWellFormed(cfg, rs);
    StreamTotals(rs);
    CanonicalIffInOrder(cfg.marshal, Atoms(rs));
    ResponseIsCanonical(cfg.marshal, r, blocks);
    if AllEncode(cfg.marshal, r.toolCalls) {
      CanonicalHasToolUse(cfg.marshal, r.thinking, r.content, r.toolCalls);
    }
  }

  /** A model that speaks and then thinks: its stream is complete, and its client does
      not end with the message that is sent at once. */
  lemma SpeaksThenThinks<A>(cfg: Config<A>, m: Metrics)
    ensures var rs := [Chunk("", "Hi", [], false, "", m), Chunk("so", "", [], true, "stop", m)];
            CompleteStream(rs) && !Agrees(cfg.marshal, Response(Concatenated(rs)), Feed(FRESH, Run(cfg, INITIAL, rs).1))
  {
    hide Run, Feed, Response, Agrees, Concatenated;
    var rs: seq<Chunk<A>> := [Chunk("", "Hi", [], false, "", m), Chunk("so", "", [], true, "stop", m)];
    var atoms: seq<Atom<A>> := [Said("Hi"), Thought("so")];
    var none: seq<Chunk<A>>, one := [], [rs[0]];
    assert one[..0] == none && rs[..1] == one;
    assert AtomsOf(rs[0]) == [Said("Hi")] && AtomsOf(rs[1]) == [Thought("so")];
    assert Atoms(one) == [Said("Hi")];
    assert Atoms(rs) == atoms;
    assert Rank(atoms[0]) > Rank(atoms[1]);
    StreamAgreesIffInOrder(cfg, rs);
  }
}
