/** Which of a model's thinking a streaming client keeps, in any order of chunks. */
module StreamThinking {
  import opened Results
  import opened StreamTypes
  import opened StreamConverter
  import opened StreamClient
  import opened StreamAgreement

  /** A tool call with an id that no earlier call made into a block. */
  ghost predicate NewCall<A>(marshal: A -> Option<string>, atoms: seq<Atom<A>>, k: nat)
    requires k < |atoms|
  {
    atoms[k].Called? &&
    forall i | 0 <= i < k :: !SameCall(marshal, atoms[i], atoms[k])
  }

  /** This earlier atom is a call with the same id, whose arguments encode. */
  predicate SameCall<A>(marshal: A -> Option<string>, earlier: Atom<A>, a: Atom<A>) {
    earlier.Called? && a.Called? && earlier.call.id == a.call.id && marshal(earlier.call.args).Some?
  }

  /** Thinking is over at k: text or a new call follows some thinking. */
  ghost predicate EndsThinking<A>(marshal: A -> Option<string>, atoms: seq<Atom<A>>, k: nat)
    requires k < |atoms|
  {
    (atoms[k].Said? || NewCall(marshal, atoms, k)) && Thinks(atoms, k)
  }

  /** One of the first n atoms is thinking. */
  ghost predicate Thinks<A>(atoms: seq<Atom<A>>, n: nat)
    requires n <= |atoms|
  {
    exists i :: 0 <= i < n && atoms[i].Thought?
  }

  /** The atoms before n are all there is before thinking is over. */
  ghost predicate ThinkingStops<A>(marshal: A -> Option<string>, atoms: seq<Atom<A>>, n: nat) {
    n <= |atoms| && (forall k | 0 <= k < n :: !EndsThinking(marshal, atoms, k)) &&
    (n < |atoms| ==> EndsThinking(marshal, atoms, n))
  }

  function BlockThinking(b: Block): string {
    match b case Thinking(t) => t case _ => ""
  }

  /** All thinking in the blocks. */
  function ThinkingOf(bs: seq<Block>): string {
    if bs == [] then "" else ThinkingOf(bs[..|bs| - 1]) + BlockThinking(Last(bs))
  }

  ghost predicate HasThinking(bs: seq<Block>) { exists k :: 0 <= k < |bs| && bs[k].Thinking? }

  lemma ThinkingOfAppend(bs: seq<Block>, b: Block)
    ensures ThinkingOf(bs + [b]) == ThinkingOf(bs) + BlockThinking(b)
    ensures HasThinking(bs + [b]) <==> HasThinking(bs) || b.Thinking?
  {
    var all := bs + [b];
    assert all[..|bs|] == bs && all[|bs|] == b;
    assert forall k | 0 <= k < |bs| :: all[k] == bs[k];
  }

  lemma SplitLast(bs: seq<Block>)
    requires bs != []
    ensures bs == bs[..|bs| - 1] + [Last(bs)]
  {}

  lemma ThinkingOfReplace(bs: seq<Block>, b: Block)
    requires bs != [] && (b.Thinking? <==> Last(bs).Thinking?)
    ensures ThinkingOf(ReplaceLast(bs, b)) == ThinkingOf(bs[..|bs| - 1]) + BlockThinking(b)
    ensures ThinkingOf(bs) == ThinkingOf(bs[..|bs| - 1]) + BlockThinking(Last(bs))
    ensures HasThinking(ReplaceLast(bs, b)) <==> HasThinking(bs)
  {
    hide ThinkingOf, HasThinking, BlockThinking;
    SplitLast(bs);
    ThinkingOfAppend(bs[..|bs| - 1], b);
    ThinkingOfAppend(bs[..|bs| - 1], Last(bs));
  }

  // ---- Which ids are used -------------------------------------------------

  ghost predicate Uses<A>(marshal: A -> Option<string>, atoms: seq<Atom<A>>, id: string) {
    exists i :: 0 <= i < |atoms| && atoms[i].Called? && atoms[i].call.id == id && marshal(atoms[i].call.args).Some?
  }

  lemma UsesNext<A>(marshal: A -> Option<string>, front: seq<Atom<A>>, x: Atom<A>, id: string)
    ensures Uses(marshal, front + [x], id) <==>
            Uses(marshal, front, id) || (x.Called? && x.call.id == id && marshal(x.call.args).Some?)
  {
    var all := front + [x];
    assert all[|front|] == x && forall i | 0 <= i < |front| :: all[i] == front[i];
  }

  lemma {:induction false} UsedIdsAre<A>(marshal: A -> Option<string>, atoms: seq<Atom<A>>, id: string)
    ensures id in UsedIds(Build(marshal, atoms).blocks) <==> Uses(marshal, atoms, id)
    decreases |atoms|
  {
    if atoms != [] {
      hide UsedIds, ThinkingOver, Uses;
      var front, x := atoms[..|atoms| - 1], atoms[|atoms| - 1];
      assert atoms == front + [x];
      UsedIdsAre(marshal, front, id);
      UsesNext(marshal, front, x, id);
      var b := Build(marshal, front);
      if x.Called? { UsedIdsAre(marshal, front, x.call.id); }
      UsedIdsOfAdd(marshal, b, x);
    }
  }

  lemma UsedIdsOfAdd<A>(marshal: A -> Option<string>, b: Built, x: Atom<A>)
    ensures UsedIds(Add(marshal, b, x).blocks)
         == UsedIds(b.blocks) + if x.Called? && marshal(x.call.args).Some? then {x.call.id} else {}
  {
    hide UsedIds, ThinkingOver;
    var bs := b.blocks;
    match x
    case Thought(t) =>
      UsedIdsAppend(bs, Thinking(t));
      if bs != [] && Last(bs).Thinking? { UsedIdsReplace(bs, Thinking(Last(bs).text + t)); }
    case Said(t) =>
      UsedIdsAppend(bs, Text(t));
      if bs != [] && Last(bs).Text? { UsedIdsReplace(bs, Text(Last(bs).text + t)); }
    case Called(tc) =>
      if marshal(tc.args).Some? { UsedIdsAppend(bs, ToolUse(tc.id, tc.name, marshal(tc.args).value)); }
  }

  /** A call is new exactly if its id has no block yet. */
  lemma NewCallIs<A>(marshal: A -> Option<string>, atoms: seq<Atom<A>>, k: nat)
    requires k < |atoms| && atoms[k].Called?
    ensures NewCall(marshal, atoms, k) <==> atoms[k].call.id !in UsedIds(Build(marshal, atoms[..k]).blocks)
  {
    hide UsedIds, Build;
    UsedIdsAre(marshal, atoms[..k], atoms[k].call.id);
    assert forall i | 0 <= i < k :: atoms[..k][i] == atoms[i];
  }

  // ---- One atom more ------------------------------------------------------

  /** The builder before its thinking is over: a thinking block is the last and grows. */
  lemma StillThinking(b: Built)
    requires HasThinking(b.blocks) && !ThinkingOver(b)
    ensures b.growing && b.blocks != [] && Last(b.blocks).Thinking?
  {}

  lemma NotOver(b: Built)
    requires !HasThinking(b.blocks)
    ensures !ThinkingOver(b)
  {}

  /** Once over, nothing changes the thinking. */
  lemma OverStays<A>(marshal: A -> Option<string>, b: Built, x: Atom<A>)
    requires ThinkingOver(b)
    ensures ThinkingOver(Add(marshal, b, x)) && ThinkingOf(Add(marshal, b, x).blocks) == ThinkingOf(b.blocks)
  {
    hide ThinkingOf, HasThinking, UsedIds;
    var bs, b' := b.blocks, Add(marshal, b, x);
    var k :| 0 <= k < |bs| && bs[k].Thinking? && !(b.growing && k == |bs| - 1);
    assert b'.blocks[k] == bs[k];
    match x
    case Thought(t) =>
    case Said(t) =>
      ThinkingOfAppend(bs, Text(t));
      if bs != [] && Last(bs).Text? { ThinkingOfReplace(bs, Text(Last(bs).text + t)); }
    case Called(tc) =>
      if marshal(tc.args).Some? { ThinkingOfAppend(bs, ToolUse(tc.id, tc.name, marshal(tc.args).value)); }
  }

  /** Text or a new call ends open thinking and leaves it as it is. */
  lemma Ends<A>(marshal: A -> Option<string>, b: Built, x: Atom<A>)
    requires HasThinking(b.blocks) && !ThinkingOver(b)
    requires x.Said? || (x.Called? && x.call.id !in UsedIds(b.blocks))
    ensures ThinkingOver(Add(marshal, b, x)) && ThinkingOf(Add(marshal, b, x).blocks) == ThinkingOf(b.blocks)
  {
    StillThinking(b);
    hide ThinkingOf, HasThinking, UsedIds;
    var bs, b' := b.blocks, Add(marshal, b, x);
    match x
    case Said(t) =>
      ThinkingOfAppend(bs, Text(t));
      assert b'.blocks[|bs| - 1].Thinking?;
    case Called(tc) =>
      if marshal(tc.args).Some? { ThinkingOfAppend(bs, ToolUse(tc.id, tc.name, marshal(tc.args).value)); }
      assert b'.blocks[|bs| - 1].Thinking?;
  }

  /** Thinking that is not over takes in what is thought. */
  lemma Grows<A>(marshal: A -> Option<string>, b: Built, t: string)
    requires !ThinkingOver(b)
    ensures var b' := Add(marshal, b, Thought(t));
            !ThinkingOver(b') && HasThinking(b'.blocks) && ThinkingOf(b'.blocks) == ThinkingOf(b.blocks) + t
  {
    var bs := b.blocks;
    if HasThinking(bs) {
      StillThinking(b);
      hide ThinkingOf;
      ThinkingOfReplace(bs, Thinking(Last(bs).text + t));
      Assoc(ThinkingOf(bs[..|bs| - 1]), Last(bs).text, t);
    } else {
      hide ThinkingOf;
      ThinkingOfAppend(bs, Thinking(t));
    }
  }

  /** Without thinking so far, text and calls leave none. */
  lemma NoneYet<A>(marshal: A -> Option<string>, b: Built, x: Atom<A>)
    requires !HasThinking(b.blocks) && !x.Thought?
    ensures !HasThinking(Add(marshal, b, x).blocks) && ThinkingOf(Add(marshal, b, x).blocks) == ThinkingOf(b.blocks)
  {
    NotOver(b);
    hide ThinkingOf, HasThinking, UsedIds, ThinkingOver;
    var bs := b.blocks;
    match x
    case Said(t) =>
      ThinkingOfAppend(bs, Text(t));
      if bs != [] && Last(bs).Text? { ThinkingOfReplace(bs, Text(Last(bs).text + t)); }
    case Called(tc) =>
      if marshal(tc.args).Some? { ThinkingOfAppend(bs, ToolUse(tc.id, tc.name, marshal(tc.args).value)); }
  }

  // ---- The thinking that is kept ------------------------------------------

  lemma ThinksNext<A>(front: seq<Atom<A>>, x: Atom<A>)
    ensures Thinks(front + [x], |front| + 1) <==> Thinks(front, |front|) || x.Thought?
  {
    var all := front + [x];
    assert all[|front|] == x && forall i | 0 <= i < |front| :: all[i] == front[i];
  }

  lemma EndsEarlier<A>(marshal: A -> Option<string>, front: seq<Atom<A>>, x: Atom<A>, k: nat)
    requires k < |front|
    ensures EndsThinking(marshal, front + [x], k) <==> EndsThinking(marshal, front, k)
  {
    assert forall i | 0 <= i < |front| :: (front + [x])[i] == front[i];
  }

  lemma EndsLast<A>(marshal: A -> Option<string>, front: seq<Atom<A>>, x: Atom<A>)
    ensures EndsThinking(marshal, front + [x], |front|) <==>
            (x.Said? || (x.Called? && x.call.id !in UsedIds(Build(marshal, front).blocks))) && Thinks(front, |front|)
  {
    hide UsedIds, Build;
    var all := front + [x];
    assert all[..|front|] == front && all[|front|] == x && forall i | 0 <= i < |front| :: all[i] == front[i];
    if x.Called? { NewCallIs(marshal, all, |front|); }
    assert Thinks(all, |front|) <==> Thinks(front, |front|);
  }

  /** The blocks keep exactly what is thought before thinking is over. */
  lemma {:induction false} ThinkingIsKept<A>(marshal: A -> Option<string>, atoms: seq<Atom<A>>, n: nat)
    requires ThinkingStops(marshal, atoms, n)
    ensures ThinkingOf(Build(marshal, atoms).blocks) == ThoughtText(atoms[..n])
    ensures ThinkingOver(Build(marshal, atoms)) <==> n < |atoms|
    ensures HasThinking(Build(marshal, atoms).blocks) <==> Thinks(atoms, |atoms|)
    decreases |atoms|
  {
    if atoms == [] {
      assert atoms[..n] == [];
    } else {
      hide Add, ThinkingOf, ThinkingOver, HasThinking, UsedIds, EndsThinking, ThoughtText, Thinks;
      var front, x := atoms[..|atoms| - 1], atoms[|atoms| - 1];
      assert atoms == front + [x];
      forall k | 0 <= k < |front| ensures EndsThinking(marshal, atoms, k) <==> EndsThinking(marshal, front, k) {
        EndsEarlier(marshal, front, x, k);
      }
      var m := if n < |front| then n else |front|;
      ThinkingIsKept(marshal, front, m);
      assert atoms[..m] == front[..m];
      KeptNext(marshal, front, x, n);
    }
  }

  lemma BuildNext<A>(marshal: A -> Option<string>, front: seq<Atom<A>>, x: Atom<A>)
    ensures Build(marshal, front + [x]) == Add(marshal, Build(marshal, front), x)
  {
    hide Add;
    assert (front + [x])[..|front|] == front;
  }

  lemma KeptNext<A>(marshal: A -> Option<string>, front: seq<Atom<A>>, x: Atom<A>, n: nat)
    requires ThinkingStops(marshal, front + [x], n)
    requires var m, b := if n < |front| then n else |front|, Build(marshal, front);
             ThinkingOf(b.blocks) == ThoughtText(front[..m]) && (ThinkingOver(b) <==> m < |front|) &&
             (HasThinking(b.blocks) <==> Thinks(front, |front|))
    ensures var all := front + [x]; var b' := Build(marshal, all);
            ThinkingOf(b'.blocks) == ThoughtText(all[..n]) && (ThinkingOver(b') <==> n < |all|) &&
            (HasThinking(b'.blocks) <==> Thinks(all, |all|))
  {
    hide Add, Build, ThinkingOf, ThinkingOver, HasThinking, UsedIds, EndsThinking, ThoughtText, Thinks;
    var all, b := front + [x], Build(marshal, front);
    BuildNext(marshal, front, x);
    ThinksNext(front, x);
    EndsLast(marshal, front, x);
    if n < |front| {
      OverStays(marshal, b, x);
      assert all[..n] == front[..n];
      OverHas(b);
      OverHas(Add(marshal, b, x));
    } else if n == |front| {
      Ends(marshal, b, x);
      assert all[..n] == front == front[..|front|];
      OverHas(Add(marshal, b, x));
    } else {
      assert front[..|front|] == front && all[..n] == all;
      TotalsNext(front, x);
      NotEnded(marshal, front, x);
    }
  }

  lemma OverHas(b: Built)
    requires ThinkingOver(b)
    ensures HasThinking(b.blocks)
  {}

  lemma NotEnded<A>(marshal: A -> Option<string>, front: seq<Atom<A>>, x: Atom<A>)
    requires var b := Build(marshal, front);
             !ThinkingOver(b) && (HasThinking(b.blocks) <==> Thinks(front, |front|)) &&
             !((x.Said? || (x.Called? && x.call.id !in UsedIds(b.blocks))) && Thinks(front, |front|))
    ensures var b := Build(marshal, front); var b' := Add(marshal, b, x);
            !ThinkingOver(b') && ThinkingOf(b'.blocks) == ThinkingOf(b.blocks) + ThoughtPart(x) &&
            (HasThinking(b'.blocks) <==> HasThinking(b.blocks) || x.Thought?)
  {
    hide Build, ThinkingOf, ThinkingOver, HasThinking, UsedIds, Thinks;
    var b := Build(marshal, front);
    if x.Thought? {
      Grows(marshal, b, x.text);
    } else if !HasThinking(b.blocks) {
      NoneYet(marshal, b, x);
      NotOver(Add(marshal, b, x));
    }
  }

  /** In any order of chunks, a complete stream leaves the thinking before the first text
      or new call that follows some thinking; later thinking is dropped. */
  lemma StreamKeepsThinking<A>(cfg: Config<A>, rs: seq<Chunk<A>>, n: nat)
    requires CompleteStream(rs) && ThinkingStops(cfg.marshal, Atoms(rs), n)
    ensures ThinkingOf(Feed(FRESH, Run(cfg, INITIAL, rs).1).blocks) == ThoughtText(Atoms(rs)[..n])
  {
    hide Run, Feed, Build, ThinkingStops;
    CompleteStreamIsWellFormed(cfg, rs);
    ThinkingIsKept(cfg.marshal, Atoms(rs), n);
  }

  /** And there is such a place, and only one. */
  lemma {:induction false} ThinkingStopsOnce<A>(marshal: A -> Option<string>, atoms: seq<Atom<A>>)
    ensures exists n: nat :: ThinkingStops(marshal, atoms, n)
    ensures forall i: nat, j: nat | ThinkingStops(marshal, atoms, i) && ThinkingStops(marshal, atoms, j) :: i == j
  {
    hide EndsThinking;
    var n := 0;
    while n < |atoms| && !EndsThinking(marshal, atoms, n)
      invariant n <= |atoms| && forall k | 0 <= k < n :: !EndsThinking(marshal, atoms, k)
    {
      n := n + 1;
    }
    assert ThinkingStops(marshal, atoms, n);
  }
}
