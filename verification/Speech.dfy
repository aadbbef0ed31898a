/** cmd/speech.go: cutting streamed text into pieces to be spoken. Text is bytes, read
    in any portions; what is counted and spoken are the runes they decode to. */
module Speech {
  import opened Bytes
  import opened Results
  import opened Strings
  import opened Utf8

  // ---- White space --------------------------------------------------------

  const TAB := 9
  const LINE_FEED := 10
  const RETURN := 13
  const SPACE := 32

  /** The property White_Space of the Unicode Character Database. */
  predicate IsSpace(r: Rune) {
    TAB <= r <= RETURN || r == SPACE || r == 0x85 || r == 0xA0 || r == 0x1680 || 0x2000 <= r <= 0x200A
    || r == 0x2028 || r == 0x2029 || r == 0x202F || r == 0x205F || r == 0x3000
  }

  function TrimLeft(s: seq<byte>): (t: seq<byte>)
    ensures |t| <= |s|
    decreases |s|
  {
    if s != [] && IsSpace(First(s)) then TrimLeft(s[Size(s)..]) else s
  }

  function TrimRight(s: seq<byte>): (t: seq<byte>)
    ensures t <= s
    decreases |s|
  {
    if s != [] && IsSpace(Last(s)) then TrimRight(s[..|s| - LastSize(s)]) else s
  }

  function Trim(s: seq<byte>): seq<byte> { TrimRight(TrimLeft(s)) }

  /** The runes that are heard. */
  function Heard(rs: seq<Rune>): seq<Rune> {
    if rs == [] then [] else (if IsSpace(rs[0]) then [] else [rs[0]]) + Heard(rs[1..])
  }

  function Spoken(s: seq<byte>): seq<Rune> { Heard(Runes(s)) }

  lemma {:induction false} HeardConcat(a: seq<Rune>, b: seq<Rune>)
    ensures Heard(a + b) == Heard(a) + Heard(b)
  {
    hide IsSpace;
    if a == [] {
      assert a + b == b;
    } else {
      HeardConcat(a[1..], b);
      var first := if IsSpace(a[0]) then [] else [a[0]];
      assert (a + b)[1..] == a[1..] + b && (a + b)[0] == a[0];
      assert Heard(a + b) == first + (Heard(a[1..]) + Heard(b));
    }
  }

  lemma {:induction false} TrimLeftIs(s: seq<byte>)
    ensures var t := TrimLeft(s);
            Spoken(t) == Spoken(s) && |Runes(t)| <= |Runes(s)| && (t != [] ==> !IsSpace(Runes(t)[0]))
    decreases |s|
  {
    hide IsSpace, First, Size;
    RunesSome(s);
    if s != [] && IsSpace(First(s)) {
      TrimLeftIs(s[Size(s)..]);
      assert Runes(s)[1..] == Runes(s[Size(s)..]);
    }
  }

  lemma {:induction false} TrimRightIs(s: seq<byte>)
    ensures var t := TrimRight(s);
            Spoken(t) == Spoken(s) && Runes(t) <= Runes(s) && (t != [] ==> !IsSpace(Runes(t)[|Runes(t)| - 1]))
    ensures s != [] && !IsSpace(Runes(s)[0]) ==> TrimRight(s) != []
    decreases |s|
  {
    hide IsSpace, Runes, Last, LastSize;
    RunesSome(s);
    if s != [] {
      LastIsLast(s);
      if IsSpace(Last(s)) {
        var front := s[..|s| - LastSize(s)];
        TrimRightIs(front);
        HeardConcat(Runes(front), [Last(s)]);
        RunesSome(front);
      }
    }
  }

  /** Trimming drops white space at the ends, and nothing else. */
  lemma TrimIs(s: seq<byte>)
    ensures var t := Trim(s);
            |t| <= |s| && Spoken(t) == Spoken(s) && |Runes(t)| <= |Runes(s)| &&
            (t != [] ==> Runes(t) != [] && !IsSpace(Runes(t)[0]) && !IsSpace(Runes(t)[|Runes(t)| - 1]))
    ensures s != [] && !IsSpace(Runes(s)[0]) ==> Trim(s) != []
  {
    hide IsSpace, Runes, TrimLeft, TrimRight, Spoken;
    TrimLeftIs(s);
    TrimRightIs(TrimLeft(s));
    RunesSome(Trim(s));
    RunesSome(TrimLeft(s));
    RunesSome(s);
    assert TrimLeft(s) != [] ==> Trim(s) != [];
    if s != [] && !IsSpace(Runes(s)[0]) { KeptLeft(s); }
  }

  lemma KeptLeft(s: seq<byte>)
    requires s != [] && Runes(s) != [] && !IsSpace(Runes(s)[0])
    ensures TrimLeft(s) == s
  {
    hide IsSpace;
    RunesSome(s);
  }

  // ---- Where text may be cut ----------------------------------------------

  /** A full stop, an exclamation mark or a question mark. */
  predicate EndsSentence(b: byte) { b == 46 || b == 33 || b == 63 }

  /** A sentence ends just before i: a mark that is not the first byte, and white space
      after it. */
  predicate SentenceEnd(s: seq<byte>, i: nat) {
    1 < i < |s| && EndsSentence(s[i - 1]) && (s[i] == SPACE || s[i] == LINE_FEED)
  }

  /** The last sentence end at most at upto, or -1. */
  function LastEnd(s: seq<byte>, upto: nat): (r: int)
    ensures r == -1 || (0 <= r <= upto && SentenceEnd(s, r))
    ensures forall i: nat | r < i <= upto :: !SentenceEnd(s, i)
  {
    if SentenceEnd(s, upto) then upto
    else if upto == 0 then -1
    else LastEnd(s, upto - 1)
  }

  lemma {:induction false} LastEndIs(s: seq<byte>, upto: nat, r: int)
    requires r == -1 || (0 <= r <= upto && SentenceEnd(s, r))
    requires forall i: nat | r < i <= upto :: !SentenceEnd(s, i)
    ensures r == LastEnd(s, upto)
  {
    var l := LastEnd(s, upto);
    if l >= 0 { assert SentenceEnd(s, l); }
  }

  method LastSentenceEnd(s: seq<byte>) returns (r: int)
    ensures r == LastEnd(s, |s|)
  {
    var i := |s| - 2;
    while i > 0
      invariant forall k: nat | k > i + 1 :: !SentenceEnd(s, k)
    {
      if EndsSentence(s[i]) && (s[i + 1] == SPACE || s[i + 1] == LINE_FEED) {
        LastEndIs(s, |s|, i + 1);
        return i + 1;
      }
      i := i - 1;
    }
    LastEndIs(s, |s|, -1);
    return -1;
  }

  function IntIndex(i: Option<nat>): int {
    match i case None => -1 case Some(v) => v
  }

  const PARAGRAPH: seq<byte> := [LINE_FEED, LINE_FEED]

  const MIN_PIECE := 100

  predicate ParagraphEnd(s: seq<byte>, i: nat) { i > 0 && OccursAt(s, PARAGRAPH, i) }

  /** A paragraph or a sentence ends just before i. */
  predicate Break(s: seq<byte>, i: nat) { ParagraphEnd(s, i) || SentenceEnd(s, i) }

  /** The next byte is ASCII, so no rune reaches over a break. */
  lemma BreakStarts(s: seq<byte>, i: nat, more: seq<byte>)
    requires Break(s, i)
    ensures i < |s| && Runes(s + more) == Runes(s[..i]) + Runes(s[i..] + more)
  {
    hide Runes;
    BreakIsAscii(s, i);
    var a, b := s[..i], s[i..] + more;
    assert b[0] == s[i];
    CutAtStart(a, b);
    assert s + more == a + b;
  }

  lemma BreakIsAscii(s: seq<byte>, i: nat)
    requires Break(s, i)
    ensures i < |s| && s[i] < 0x80
  {
    if ParagraphEnd(s, i) { assert s[i..][0] == PARAGRAPH[0]; }
  }

  /** Later breaks have more runes before them. */
  lemma MoreBefore(s: seq<byte>, i: nat, j: nat)
    requires Break(s, i) && i <= j <= |s|
    ensures |Runes(s[..i])| <= |Runes(s[..j])|
  {
    hide Runes;
    BreakIsAscii(s, i);
    if i < j { CutBefore(s, i, j); }
  }

  /** Where text can be cut so that the part before is spoken now; 0 to wait. */
  function SpeechCut(text: seq<byte>): nat {
    var para, sentence := IntIndex(LastIndex(text, PARAGRAPH, |text|)), LastEnd(text, |text|);
    var cut := if para < sentence then sentence else para;
    if para > 0 || (cut > 0 && |Runes(text[..cut])| >= MIN_PIECE) then cut else 0
  }

  /** Text is cut exactly if it holds the end of a paragraph, or the end of a sentence
      after enough runes; and then at the last of either. */
  lemma SpeechCutIs(text: seq<byte>)
    ensures SpeechCut(text) <= |text|
    ensures SpeechCut(text) > 0 <==>
            exists i: nat :: ParagraphEnd(text, i) || (SentenceEnd(text, i) && |Runes(text[..i])| >= MIN_PIECE)
    ensures SpeechCut(text) > 0 ==>
            Break(text, SpeechCut(text)) && forall i: nat | i > SpeechCut(text) :: !Break(text, i)
  {
    hide Runes;
    var para, sentence := IntIndex(LastIndex(text, PARAGRAPH, |text|)), LastEnd(text, |text|);
    if para > 0 { assert ParagraphEnd(text, para); }
    forall i: nat | SentenceEnd(text, i) && |Runes(text[..i])| >= MIN_PIECE && para <= 0
      ensures SpeechCut(text) > 0
    {
      MoreBefore(text, i, sentence);
    }
  }

  /** No rune reaches over a cut, whatever is read later and even if what was read so
      far ends inside a rune. */
  lemma CutBetweenRunes(text: seq<byte>, more: seq<byte>)
    ensures SpeechCut(text) <= |text|
    ensures Runes(text + more) == Runes(text[..SpeechCut(text)]) + Runes(text[SpeechCut(text)..] + more)
  {
    SpeechCutIs(text);
    hide Runes, SpeechCut;
    var cut := SpeechCut(text);
    if cut > 0 {
      BreakStarts(text, cut, more);
    } else {
      assert text[..0] == [] && text[0..] == text;
      RunesSome([]);
    }
  }

  lemma BreakOfRest(s: seq<byte>, at: nat, i: nat)
    requires at <= |s| && Break(s[at..], i)
    ensures i > 0 && Break(s, at + i)
  {
    assert s[at..][i..] == s[at + i..];
  }

  /** What is held back after a cut would not be cut again. */
  lemma NothingMoreToCut(text: seq<byte>)
    ensures SpeechCut(text) <= |text| && SpeechCut(text[SpeechCut(text)..]) == 0
  {
    SpeechCutIs(text);
    var cut := SpeechCut(text);
    var rest := text[cut..];
    hide Runes, SpeechCut;
    SpeechCutIs(rest);
    if cut > 0 {
      hide ParagraphEnd, SentenceEnd;
      forall i: nat ensures !Break(rest, i) {
        if Break(rest, i) { BreakOfRest(text, cut, i); }
      }
    } else {
      assert rest == text;
    }
  }

  // ---- Chunks -------------------------------------------------------------

  const CRLF: seq<byte> := [RETURN, LINE_FEED]

  /** Line ends become line feeds. */
  function Unix(s: seq<byte>): seq<byte>
    decreases |s|
  {
    match Index(s, CRLF, 0)
    case None => s
    case Some(i) => s[..i] + ([LINE_FEED] + Unix(s[i + 2..]))
  }

  /** The text between paragraph breaks. */
  function Paragraphs(s: seq<byte>): seq<seq<byte>>
    decreases |s|
  {
    match Index(s, PARAGRAPH, 0)
    case None => [s]
    case Some(i) => [s[..i]] + Paragraphs(s[i + 2..])
  }

  predicate Blank(b: byte) { b == SPACE || b == TAB || b == LINE_FEED }

  /** The last blank at most at upto, or -1. */
  function LastBlank(s: seq<byte>, upto: nat): (r: int)
    requires upto <= |s|
    ensures r == -1 || (0 <= r < upto && Blank(s[r]))
    ensures forall i: nat | r < i < upto :: !Blank(s[i])
  {
    if upto == 0 then -1
    else if Blank(s[upto - 1]) then upto - 1
    else LastBlank(s, upto - 1)
  }

  /** How much of a paragraph the next chunk takes: all of it if it fits, otherwise up
      to the last sentence end or blank of the runes that fit. */
  function ChunkEnd(p: seq<byte>, limit: nat): (end: nat)
    requires limit >= 1 && p != []
    ensures end <= |p|
  {
    if |Runes(p)| <= limit then |p|
    else
      var fits := p[..End(p, limit)];
      var sentence, blank := LastEnd(fits, |fits|), LastBlank(fits, |fits|);
      if sentence > 0 then sentence else if blank > 0 then blank else |fits|
  }

  /** The next chunk is whole runes, at least one and at most limit. */
  lemma ChunkEndIs(p: seq<byte>, limit: nat)
    requires limit >= 1 && p != []
    ensures 1 <= ChunkEnd(p, limit) <= |p|
    ensures Runes(p) == Runes(p[..ChunkEnd(p, limit)]) + Runes(p[ChunkEnd(p, limit)..])
    ensures 1 <= |Runes(p[..ChunkEnd(p, limit)])| <= limit
  {
    hide Runes, End;
    RunesSome(p);
    var end := ChunkEnd(p, limit);
    if |Runes(p)| <= limit {
      assert p[..end] == p && p[end..] == [];
      RunesSome([]);
    } else {
      EndCuts(p, limit);
      if end < End(p, limit) {
        hide ChunkEnd;
        CutBefore(p, end, End(p, limit));
      }
    }
    RunesSome(p[..end]);
  }

  lemma CutBefore(s: seq<byte>, i: nat, j: nat)
    requires i < j <= |s| && s[i] < 0x80
    ensures Runes(s) == Runes(s[..i]) + Runes(s[i..]) && Runes(s[..i]) <= Runes(s[..j])
  {
    hide Runes;
    var a, mid, b := s[..i], s[i..j], s[i..];
    assert mid[0] == s[i] && b[0] == s[i];
    CutAtStart(a, b);
    assert s == a + b;
    CutAtStart(a, mid);
    assert s[..j] == a + mid;
  }

  /** The chunks of one paragraph. */
  function ParagraphChunks(para: seq<byte>, limit: nat): seq<seq<byte>>
    requires limit >= 1
    decreases |para|
  {
    TrimIs(para);
    var p := Trim(para);
    if p == [] then []
    else
      ChunkEndIs(p, limit);
      var end := ChunkEnd(p, limit);
      [Trim(p[..end])] + ParagraphChunks(p[end..], limit)
  }

  function AllChunks(paras: seq<seq<byte>>, limit: nat): seq<seq<byte>>
    requires limit >= 1
  {
    if paras == [] then []
    else AllChunks(paras[..|paras| - 1], limit) + ParagraphChunks(paras[|paras| - 1], limit)
  }

  /** How much of p, trimmed, the next chunk takes; the loop decodes rune by rune. */
  method CutChunk(p: seq<byte>, limit: nat) returns (end: nat)
    requires limit >= 1 && p != []
    ensures end == ChunkEnd(p, limit)
  {
    hide Runes, End, Size;
    end := |p|;
    if |Runes(p)| > limit {
      end := 0;
      RuneEnds(p, 0);
      for k := 0 to limit
        invariant end <= |p| && end == End(p, k)
      {
        RuneEnds(p, k);
        end := end + Size(p[end..]);
      }
      var i := LastSentenceEnd(p[..end]);
      if i > 0 {
        end := i;
      } else {
        i := LastBlank(p[..end], end);
        if i > 0 { end := i; }
      }
    }
  }

  lemma RuneEnds(p: seq<byte>, k: nat)
    requires k < |Runes(p)|
    ensures End(p, 0) == 0 && End(p, k) < |p| && End(p, k + 1) == End(p, k) + Size(p[End(p, k)..])
  {
    EndNext(p, k);
  }

  /** Cuts one paragraph, trimming what is left before each chunk. */
  method ChunkParagraph(para: seq<byte>, limit: nat) returns (chunks: seq<seq<byte>>)
    requires limit >= 1
    ensures chunks == ParagraphChunks(para, limit)
  {
    hide Trim, ChunkEnd, Runes, Spoken, IsSpace;
    chunks := [];
    ghost var rest := para;
    TrimIs(para);
    var p := Trim(para);
    while p != []
      invariant p == Trim(rest)
      invariant chunks + ParagraphChunks(rest, limit) == ParagraphChunks(para, limit)
      decreases |p|
    {
      var end := CutChunk(p, limit);
      ChunkEndIs(p, limit);
      chunks := chunks + [Trim(p[..end])];
      p := p[end..];
      rest := p;
      TrimIs(p);
      p := Trim(p);
    }
  }

  /** Splits text into one chunk per paragraph, cutting long paragraphs. */
  method SpeechChunks(text: seq<byte>, limit: nat) returns (chunks: seq<seq<byte>>)
    requires limit >= 1
    ensures chunks == AllChunks(Paragraphs(Unix(text)), limit)
  {
    hide ParagraphChunks;
    chunks := [];
    var paras := Paragraphs(Unix(text));
    for k := 0 to |paras|
      invariant chunks == AllChunks(paras[..k], limit)
    {
      assert paras[..k + 1][..k] == paras[..k];
      var cut := ChunkParagraph(paras[k], limit);
      chunks := chunks + cut;
    }
    assert paras[..|paras|] == paras;
  }

  // ---- What the chunks carry ----------------------------------------------

  /** The runes heard when the parts are spoken one by one. */
  function SpokenOf(parts: seq<seq<byte>>): seq<Rune> {
    if parts == [] then [] else SpokenOf(parts[..|parts| - 1]) + Spoken(parts[|parts| - 1])
  }

  lemma {:induction false} SpokenOfConcat(a: seq<seq<byte>>, b: seq<seq<byte>>)
    ensures SpokenOf(a + b) == SpokenOf(a) + SpokenOf(b)
    decreases |b|
  {
    hide Spoken;
    if b == [] {
      assert a + b == a;
    } else {
      var front, last := b[..|b| - 1], b[|b| - 1];
      SpokenOfConcat(a, front);
      assert (a + b)[..|a + b| - 1] == a + front && (a + b)[|a + b| - 1] == last;
      assert SpokenOf(a) + (SpokenOf(front) + Spoken(last)) == (SpokenOf(a) + SpokenOf(front)) + Spoken(last);
    }
  }

  lemma SpokenOfOne(part: seq<byte>)
    ensures SpokenOf([part]) == Spoken(part)
  {
    hide Spoken;
    assert [part][..0] == [];
  }

  /** A piece fit to be spoken: not empty, not too long, no white space around it. */
  predicate Fit(piece: seq<byte>, limit: nat) {
    var rs := Runes(piece);
    0 < |rs| <= limit && !IsSpace(rs[0]) && !IsSpace(rs[|rs| - 1])
  }

  lemma FirstChunk(para: seq<byte>, limit: nat)
    requires limit >= 1 && Trim(para) != []
    ensures var p := Trim(para);
            Fit(Trim(p[..ChunkEnd(p, limit)]), limit) &&
            Spoken(para) == Spoken(Trim(p[..ChunkEnd(p, limit)])) + Spoken(p[ChunkEnd(p, limit)..])
  {
    var p := Trim(para);
    var end := ChunkEnd(p, limit);
    hide Trim, ChunkEnd, Runes, IsSpace, Heard;
    TrimIs(para);
    ChunkEndIs(p, limit);
    RunesSome(p[..end]);
    TrimIs(p[..end]);
    HeardConcat(Runes(p[..end]), Runes(p[end..]));
  }

  /** The chunks of a paragraph are fit and carry exactly its spoken runes. */
  lemma {:induction false} ParagraphChunksCarry(para: seq<byte>, limit: nat)
    requires limit >= 1
    ensures forall c | c in ParagraphChunks(para, limit) :: Fit(c, limit)
    ensures SpokenOf(ParagraphChunks(para, limit)) == Spoken(para)
    decreases |para|
  {
    hide Trim, ChunkEnd, Spoken, SpokenOf, Fit, Runes, IsSpace;
    TrimIs(para);
    var p := Trim(para);
    if p == [] {
      Nothing();
    } else {
      ChunkEndIs(p, limit);
      var rest := p[ChunkEnd(p, limit)..];
      ParagraphChunksCarry(rest, limit);
      FirstChunk(para, limit);
      var first, others := Trim(p[..ChunkEnd(p, limit)]), ParagraphChunks(rest, limit);
      SpokenOfConcat([first], others);
      SpokenOfOne(first);
    }
  }

  lemma Nothing()
    ensures Spoken([]) == [] && SpokenOf([]) == []
  {}

  lemma {:induction false} AllChunksCarry(paras: seq<seq<byte>>, limit: nat)
    requires limit >= 1
    ensures forall c | c in AllChunks(paras, limit) :: Fit(c, limit)
    ensures SpokenOf(AllChunks(paras, limit)) == SpokenOf(paras)
    decreases |paras|
  {
    hide Spoken, Fit, ParagraphChunks;
    if paras != [] {
      var front, last := paras[..|paras| - 1], paras[|paras| - 1];
      AllChunksCarry(front, limit);
      ParagraphChunksCarry(last, limit);
      SpokenOfConcat(AllChunks(front, limit), ParagraphChunks(last, limit));
    }
  }

  /** Around a separator of two ASCII characters the runes are those of the parts. */
  lemma RunesAround(s: seq<byte>, sep: seq<byte>, i: nat)
    requires OccursAt(s, sep, i) && |sep| == 2 && sep[0] < 0x80 && sep[1] < 0x80
    ensures Runes(s) == Runes(s[..i]) + (sep + Runes(s[i + 2..]))
  {
    hide Runes;
    var a, b := s[..i], s[i + 2..];
    assert s[i..][..2] == sep;
    assert s == a + (sep + b) && sep + b == [sep[0]] + ([sep[1]] + b);
    CutAtStart(a, sep + b);
    Ascii(sep[0], [sep[1]] + b);
    Ascii(sep[1], b);
    assert [sep[0]] + ([sep[1]] + Runes(b)) == sep + Runes(b);
  }

  lemma BlanksUnheard(a: byte, b: byte)
    requires IsSpace(a) && IsSpace(b)
    ensures Heard([a]) == [] && Heard([a, b]) == []
  {
    assert [a][1..] == [] && [a, b][1..] == [b] && [b][1..] == [];
    assert Heard([b]) == [];
  }

  /** A separator of two blanks is not heard. */
  lemma SpokenAround(s: seq<byte>, sep: seq<byte>, i: nat)
    requires OccursAt(s, sep, i) && |sep| == 2 && sep[0] < 0x80 && sep[1] < 0x80 && IsSpace(sep[0]) && IsSpace(sep[1])
    ensures Spoken(s) == Spoken(s[..i]) + Spoken(s[i + 2..])
  {
    hide Runes, IsSpace, Heard;
    RunesAround(s, sep, i);
    BlanksUnheard(sep[0], sep[1]);
    assert sep == [sep[0], sep[1]];
    var rest := Runes(s[i + 2..]);
    HeardConcat(sep, rest);
    HeardConcat(Runes(s[..i]), sep + rest);
    assert [] + Heard(rest) == Heard(rest);
  }

  /** Splitting at paragraph breaks only drops white space. */
  lemma {:induction false} ParagraphsCarry(s: seq<byte>)
    ensures SpokenOf(Paragraphs(s)) == Spoken(s)
    decreases |s|
  {
    hide Spoken, SpokenOf;
    var i := Index(s, PARAGRAPH, 0);
    if i.None? {
      SpokenOfOne(s);
    } else {
      ParagraphsCarry(s[i.value + 2..]);
      SpokenAround(s, PARAGRAPH, i.value);
      SpokenOfConcat([s[..i.value]], Paragraphs(s[i.value + 2..]));
      SpokenOfOne(s[..i.value]);
    }
  }

  lemma SpokenBreak(a: seq<byte>, b: seq<byte>)
    ensures Spoken(a + ([LINE_FEED] + b)) == Spoken(a) + Spoken(b)
  {
    hide Runes, Heard;
    CutAtStart(a, [LINE_FEED] + b);
    Ascii(LINE_FEED, b);
    HeardConcat(Runes(a), [LINE_FEED] + Runes(b));
    HeardConcat([LINE_FEED], Runes(b));
    BlanksUnheard(LINE_FEED, LINE_FEED);
    assert [] + Heard(Runes(b)) == Heard(Runes(b));
  }

  lemma {:induction false} UnixCarries(s: seq<byte>)
    ensures Spoken(Unix(s)) == Spoken(s)
    decreases |s|
  {
    hide Spoken;
    var i := Index(s, CRLF, 0);
    if i.Some? {
      UnixCarries(s[i.value + 2..]);
      SpokenAround(s, CRLF, i.value);
      SpokenBreak(s[..i.value], Unix(s[i.value + 2..]));
    }
  }

  /** The chunks of a text: fit, and exactly its spoken runes in order. */
  lemma ChunksCarry(text: seq<byte>, limit: nat)
    requires limit >= 1
    ensures var chunks := AllChunks(Paragraphs(Unix(text)), limit);
            (forall c | c in chunks :: Fit(c, limit)) && SpokenOf(chunks) == Spoken(text)
  {
    hide Spoken, SpokenOf, Fit, AllChunks, Paragraphs, Unix;
    UnixCarries(text);
    ParagraphsCarry(Unix(text));
    AllChunksCarry(Paragraphs(Unix(text)), limit);
  }

  // ---- Streaming ----------------------------------------------------------

  const MAX_INPUT := 4096

  function Join(parts: seq<seq<byte>>): seq<byte> {
    if parts == [] then [] else parts[0] + Join(parts[1..])
  }

  /** Sends on the text of these reads as soon as a sentence or paragraph ends. A read
      may end anywhere, also inside a rune. */
  method SpeechPieces(inputs: seq<seq<byte>>) returns (pieces: seq<seq<byte>>)
    ensures forall p | p in pieces :: Fit(p, MAX_INPUT)
    ensures SpokenOf(pieces) == Spoken(Join(inputs))
  {
    hide Spoken, SpokenOf, Fit, AllChunks, Paragraphs, Unix, SpeechCut, Join;
    pieces := [];
    var pending: seq<byte> := [];
    Start(inputs);
    for k := 0 to |inputs|
      invariant forall p | p in pieces :: Fit(p, MAX_INPUT)
      invariant SpokenOf(pieces) + Spoken(pending + Join(inputs[k..])) == Spoken(Join(inputs))
      invariant SpeechCut(pending) == 0
    {
      ghost var more := Join(inputs[k + 1..]);
      ReadNext(inputs, k, pending);
      pending := pending + inputs[k];
      NothingMoreToCut(pending);
      var cut := SpeechCut(pending);
      if cut > 0 {
        var sent := SpeechChunks(pending[..cut], MAX_INPUT);
        ChunksCarry(pending[..cut], MAX_INPUT);
        Sent(pieces, sent, pending, more);
        pieces := pieces + sent;
        pending := pending[cut..];
      }
      assert pending[0..] == pending;
    }
    var sent := SpeechChunks(pending, MAX_INPUT);
    ChunksCarry(pending, MAX_INPUT);
    SpokenOfConcat(pieces, sent);
    assert inputs[|inputs|..] == [];
    Ended(pending);
    pieces := pieces + sent;
  }

  lemma Start(inputs: seq<seq<byte>>)
    ensures SpeechCut([]) == 0 && SpokenOf([]) + Spoken([] + Join(inputs[0..])) == Spoken(Join(inputs))
  {
    SpeechCutIs([]);
    assert inputs[0..] == inputs && [] + Join(inputs) == Join(inputs);
  }

  lemma Ended(pending: seq<byte>)
    ensures pending + Join([]) == pending
  {}

  lemma ReadNext(inputs: seq<seq<byte>>, k: nat, pending: seq<byte>)
    requires k < |inputs|
    ensures pending + Join(inputs[k..]) == (pending + inputs[k]) + Join(inputs[k + 1..])
  {
    assert inputs[k..][1..] == inputs[k + 1..];
  }

  lemma Sent(pieces: seq<seq<byte>>, sent: seq<seq<byte>>, text: seq<byte>, more: seq<byte>)
    requires SpeechCut(text) <= |text| && SpokenOf(sent) == Spoken(text[..SpeechCut(text)])
    ensures SpokenOf(pieces) + Spoken(text + more)
         == SpokenOf(pieces + sent) + Spoken(text[SpeechCut(text)..] + more)
  {
    hide SpokenOf, SpeechCut, Runes, Heard;
    var cut := SpeechCut(text);
    CutBetweenRunes(text, more);
    HeardConcat(Runes(text[..cut]), Runes(text[cut..] + more));
    SpokenOfConcat(pieces, sent);
  }
}
