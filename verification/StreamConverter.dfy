/** The streaming converter of anthropic/anthropic.go: its state, what one call
    of Process does to it, and the class that does it in place. */
module StreamConverter {
  import opened Results
  import opened StreamTypes

  /** What stays fixed over a stream. */
  datatype Config<!A> = Config(id: string, model: string, estimatedInputTokens: int, marshal: A -> Option<string>)

  datatype State = State(
    firstWrite: bool, contentIndex: int, inputTokens: int, cacheRead: Option<int>, outputTokens: int,
    thinkingStarted: bool, thinkingDone: bool, textStarted: bool, sent: set<string>)

  const INITIAL := State(true, 0, 0, None, 0, false, false, false, {})

  /** A state and the events that led to it. */
  type Output = (State, seq<Event>)

  function Begin<A>(cfg: Config<A>, s: State, r: Chunk<A>): Output {
    if !s.firstWrite then (s, [])
    else
      var u := UsageFromMetrics(r.metrics);
      var input := if u.inputTokens == 0 && IntValue(u.cacheRead) == 0 && cfg.estimatedInputTokens > 0
                   then cfg.estimatedInputTokens else u.inputTokens;
      (s.(firstWrite := false, inputTokens := input, cacheRead := u.cacheRead),
       [MessageStart(cfg.id, cfg.model, Usage(input, u.cacheRead, 0))])
  }

  function CloseText(s: State): Output {
    if s.textStarted
    then (s.(contentIndex := s.contentIndex + 1, textStarted := false), [BlockStop(s.contentIndex)])
    else (s, [])
  }

  function CloseThinking(s: State): Output {
    if s.thinkingStarted && !s.thinkingDone
    then (s.(contentIndex := s.contentIndex + 1, thinkingDone := true), [BlockStop(s.contentIndex)])
    else (s, [])
  }

  function Think(s: State, text: string): Output {
    if text == "" || s.thinkingDone then (s, [])
    else
      var (s1, closed) := CloseText(s);
      var starts := if s1.thinkingStarted then [] else [BlockStart(s1.contentIndex, ThinkingStart)];
      (s1.(thinkingStarted := true), closed + starts + [BlockDelta(s1.contentIndex, ThinkingDelta(text))])
  }

  function Say(s: State, text: string): Output {
    if text == "" then (s, [])
    else
      var (s1, closed) := CloseThinking(s);
      var starts := if s1.textStarted then [] else [BlockStart(s1.contentIndex, TextStart)];
      (s1.(textStarted := true), closed + starts + [BlockDelta(s1.contentIndex, TextDelta(text))])
  }

  function Call<A>(cfg: Config<A>, s: State, tc: ToolCall<A>): Output {
    if tc.id in s.sent then (s, [])
    else
      var (s1, closed1) := CloseThinking(s);
      var (s2, closed2) := CloseText(s1);
      var i := s2.contentIndex;
      match cfg.marshal(tc.args)
      case None => (s2, closed1 + closed2)
      case Some(json) =>
        (s2.(contentIndex := i + 1, sent := s2.sent + {tc.id}),
         closed1 + closed2 +
         [BlockStart(i, ToolUseStart(tc.id, tc.name)), BlockDelta(i, InputJsonDelta(json)), BlockStop(i)])
  }

  function Calls<A>(cfg: Config<A>, s: State, tcs: seq<ToolCall<A>>): Output {
    if tcs == [] then (s, [])
    else
      var (s1, es1) := Calls(cfg, s, tcs[..|tcs| - 1]);
      var (s2, es2) := Call(cfg, s1, tcs[|tcs| - 1]);
      (s2, es1 + es2)
  }

  function Finish<A>(s: State, r: Chunk<A>): Output {
    if !r.done then (s, [])
    else
      var closed := if s.textStarted || (s.thinkingStarted && !s.thinkingDone) then [BlockStop(s.contentIndex)] else [];
      var u := UsageFromMetrics(r.metrics);
      (s.(inputTokens := u.inputTokens, cacheRead := u.cacheRead, outputTokens := u.outputTokens),
       closed + [MessageDelta(MapStopReason(r.doneReason, |s.sent| > 0), u), MessageStop])
  }

  /** What a call of Process does with the chunk's content. */
  function Body<A>(cfg: Config<A>, s: State, r: Chunk<A>): Output {
    var (s1, es1) := Begin(cfg, s, r);
    var (s2, es2) := Think(s1, r.thinking);
    var (s3, es3) := Say(s2, r.content);
    var (s4, es4) := Calls(cfg, s3, r.toolCalls);
    (s4, es1 + es2 + es3 + es4)
  }

  /** One call of Process: the content, and the end of the message if it is done. */
  function Step<A>(cfg: Config<A>, s: State, r: Chunk<A>): Output {
    var (s1, es1) := Body(cfg, s, r);
    var (s2, es2) := Finish(s1, r);
    (s2, es1 + es2)
  }

  /** All events of a stream of chunks. */
  function Run<A>(cfg: Config<A>, s: State, rs: seq<Chunk<A>>): Output {
    if rs == [] then (s, [])
    else
      var (s1, es1) := Run(cfg, s, rs[..|rs| - 1]);
      var (s2, es2) := Step(cfg, s1, rs[|rs| - 1]);
      (s2, es1 + es2)
  }

  class Converter<A> {
    const cfg: Config<A>
    var firstWrite: bool
    var contentIndex: int
    var inputTokens: int
    var cacheRead: Option<int>
    var outputTokens: int
    var thinkingStarted: bool
    var thinkingDone: bool
    var textStarted: bool
    var toolCallsSent: set<string>

    ghost function Current(): State
      reads this
    {
      State(firstWrite, contentIndex, inputTokens, cacheRead, outputTokens,
            thinkingStarted, thinkingDone, textStarted, toolCallsSent)
    }

    constructor (cfg: Config<A>)
      ensures this.cfg == cfg && Current() == INITIAL
    {
      this.cfg := cfg;
      firstWrite := true;
      contentIndex := 0;
      inputTokens, cacheRead, outputTokens := 0, None, 0;
      thinkingStarted, thinkingDone, textStarted := false, false, false;
      toolCallsSent := {};
    }

    /** The five phases of Process, each returning the events it adds. */
    method Process(r: Chunk<A>) returns (events: seq<Event>)
      modifies this
      ensures Current() == Step(cfg, old(Current()), r).0 && events == Step(cfg, old(Current()), r).1
    {
      hide Begin, Think, Say, Calls, Finish;
      events := BeginMessage(r);
      var more := AddThinking(r.thinking);
      events := events + more;
      more := AddText(r.content);
      events := events + more;
      more := AddToolCalls(r.toolCalls);
      events := events + more;
      more := FinishMessage(r);
      events := events + more;
    }

    method BeginMessage(r: Chunk<A>) returns (events: seq<Event>)
      modifies this
      ensures Current() == Begin(cfg, old(Current()), r).0 && events == Begin(cfg, old(Current()), r).1
    {
      events := [];
      if firstWrite {
        firstWrite := false;
        var usage := UsageFromMetrics(r.metrics);
        inputTokens := usage.inputTokens;
        cacheRead := usage.cacheRead;
        if inputTokens == 0 && IntValue(cacheRead) == 0 && cfg.estimatedInputTokens > 0 {
          inputTokens := cfg.estimatedInputTokens;
        }
        events := [MessageStart(cfg.id, cfg.model, Usage(inputTokens, cacheRead, 0))];
      }
    }

    method AddThinking(text: string) returns (events: seq<Event>)
      modifies this
      ensures Current() == Think(old(Current()), text).0 && events == Think(old(Current()), text).1
    {
      events := [];
      if text != "" && !thinkingDone {
        if textStarted {
          events := events + [BlockStop(contentIndex)];
          contentIndex := contentIndex + 1;
          textStarted := false;
        }
        if !thinkingStarted {
          thinkingStarted := true;
          events := events + [BlockStart(contentIndex, ThinkingStart)];
        }
        events := events + [BlockDelta(contentIndex, ThinkingDelta(text))];
      }
    }

    method AddText(text: string) returns (events: seq<Event>)
      modifies this
      ensures Current() == Say(old(Current()), text).0 && events == Say(old(Current()), text).1
    {
      events := [];
      if text != "" {
        if thinkingStarted && !thinkingDone {
          thinkingDone := true;
          events := events + [BlockStop(contentIndex)];
          contentIndex := contentIndex + 1;
        }
        if !textStarted {
          textStarted := true;
          events := events + [BlockStart(contentIndex, TextStart)];
        }
        events := events + [BlockDelta(contentIndex, TextDelta(text))];
      }
    }

    method AddToolCalls(tcs: seq<ToolCall<A>>) returns (events: seq<Event>)
      modifies this
      ensures Current() == Calls(cfg, old(Current()), tcs).0 && events == Calls(cfg, old(Current()), tcs).1
    {
      events := [];
      for k := 0 to |tcs|
        invariant Current() == Calls(cfg, old(Current()), tcs[..k]).0 &&
                  events == Calls(cfg, old(Current()), tcs[..k]).1
      {
        assert tcs[..k + 1][..k] == tcs[..k];
        var more := AddToolCall(tcs[k]);
        events := events + more;
      }
      assert tcs[..|tcs|] == tcs;
    }

    /** The body of the tool loop; returning early is its continue. */
    method AddToolCall(tc: ToolCall<A>) returns (events: seq<Event>)
      modifies this
      ensures Current() == Call(cfg, old(Current()), tc).0 && events == Call(cfg, old(Current()), tc).1
    {
      events := [];
      if tc.id in toolCallsSent {
        return;
      }
      if thinkingStarted && !thinkingDone {
        thinkingDone := true;
        events := events + [BlockStop(contentIndex)];
        contentIndex := contentIndex + 1;
      }
      if textStarted {
        events := events + [BlockStop(contentIndex)];
        contentIndex := contentIndex + 1;
        textStarted := false;
      }
      var argsJSON := cfg.marshal(tc.args);
      if argsJSON.None? {
        return;
      }
      events := events + [BlockStart(contentIndex, ToolUseStart(tc.id, tc.name)),
                          BlockDelta(contentIndex, InputJsonDelta(argsJSON.value)),
                          BlockStop(contentIndex)];
      toolCallsSent := toolCallsSent + {tc.id};
      contentIndex := contentIndex + 1;
    }

    method FinishMessage(r: Chunk<A>) returns (events: seq<Event>)
      modifies this
      ensures Current() == Finish(old(Current()), r).0 && events == Finish(old(Current()), r).1
    {
      events := [];
      if r.done {
        if textStarted {
          events := events + [BlockStop(contentIndex)];
        } else if thinkingStarted && !thinkingDone {
          events := events + [BlockStop(contentIndex)];
        }
        var usage := UsageFromMetrics(r.metrics);
        inputTokens := usage.inputTokens;
        cacheRead := usage.cacheRead;
        outputTokens := usage.outputTokens;
        var stopReason := MapStopReason(r.doneReason, |toolCallsSent| > 0);
        events := events + [MessageDelta(stopReason, Usage(inputTokens, cacheRead, outputTokens)), MessageStop];
      }
    }
  }
}
