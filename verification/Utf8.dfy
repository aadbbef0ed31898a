/** UTF-8 as Go's unicode/utf8 decodes it (section 3.9 of the Unicode Standard, table
    3-7): every byte string is a sequence of runes, in which a byte that starts no
    well-formed encoding is the replacement character. */
module Utf8 {
  import opened Bytes

  type Rune = nat

  const REPLACEMENT: Rune := 0xFFFD

  /** A byte that only follows others in an encoding. */
  predicate Continues(b: byte) { 0x80 <= b < 0xC0 }

  /** The bytes of an encoding with this first byte; 0 if there is none. */
  function Need(lead: byte): nat {
    if lead < 0x80 then 1
    else if 0xC2 <= lead < 0xE0 then 2
    else if 0xE0 <= lead < 0xF0 then 3
    else if 0xF0 <= lead < 0xF5 then 4
    else 0
  }

  /** Some second bytes would make an overlong form, a surrogate or too large a rune. */
  predicate Second(lead: byte, b: byte) {
    Continues(b)
    && (lead == 0xE0 ==> b >= 0xA0) && (lead == 0xED ==> b < 0xA0)
    && (lead == 0xF0 ==> b >= 0x90) && (lead == 0xF4 ==> b < 0x90)
  }

  /** A well-formed encoding stands at the start of s. */
  predicate Whole(s: seq<byte>) {
    s != []
    && 1 <= Need(s[0]) <= |s|
    && (Need(s[0]) > 1 ==> Second(s[0], s[1]))
    && forall k | 2 <= k < Need(s[0]) :: Continues(s[k])
  }

  function Size(s: seq<byte>): (n: nat)
    requires s != []
    ensures 1 <= n <= |s| && n <= 4
  {
    if Whole(s) then Need(s[0]) else 1
  }

  /** The rune of a well-formed encoding. */
  function Value(s: seq<byte>): Rune
    requires 1 <= |s| <= 4
  {
    if |s| == 1 then s[0]
    else if |s| == 2 then Bits(s[0], 32) * 64 + Bits(s[1], 64)
    else if |s| == 3 then Bits(s[0], 16) * 4096 + Bits(s[1], 64) * 64 + Bits(s[2], 64)
    else Bits(s[0], 8) * 262144 + Bits(s[1], 64) * 4096 + Bits(s[2], 64) * 64 + Bits(s[3], 64)
  }

  function Bits(b: byte, m: nat): nat
    requires m > 0
  {
    b % m
  }

  function First(s: seq<byte>): Rune
    requires s != []
  {
    if Whole(s) then Value(s[..Need(s[0])]) else REPLACEMENT
  }

  function Runes(s: seq<byte>): seq<Rune> {
    if s == [] then [] else [First(s)] + Runes(s[Size(s)..])
  }

  // ---- Where runes may be cut ---------------------------------------------

  /** No rune of s reaches over its end if an encoding may start with the next byte. */
  predicate Starts(s: seq<byte>) { s == [] || !Continues(s[0]) }

  lemma WholeOf(a: seq<byte>, b: seq<byte>)
    requires a != []
    ensures Whole(a) ==> Whole(a + b)
    ensures Whole(a + b) && Need(a[0]) <= |a| ==> Whole(a)
    ensures Whole(a + b) && Starts(b) ==> Whole(a)
  {
    var s := a + b;
    assert s[0] == a[0];
    if Whole(s) && Need(s[0]) > |a| {
      assert s[|a|] == b[0];
    } else if Whole(s) {
      assert forall k | 0 <= k < |a| :: s[k] == a[k];
    }
  }

  /** The first rune of a is decoded as in any longer text that goes on at a start. */
  lemma FirstOf(a: seq<byte>, b: seq<byte>)
    requires a != [] && (Starts(b) || Whole(a) || Size(a + b) <= |a|)
    ensures First(a + b) == First(a) && Size(a + b) == Size(a)
    ensures (a + b)[Size(a)..] == a[Size(a)..] + b
  {
    WholeOf(a, b);
    hide Value, Need, Starts;
    assert (a + b)[0] == a[0];
    if Whole(a) {
      assert (a + b)[..Need(a[0])] == a[..Need(a[0])];
    }
  }

  lemma FirstThen(a: seq<byte>, b: seq<byte>)
    requires a != [] && (Starts(b) || Whole(a) || Size(a + b) <= |a|)
    ensures Size(a + b) == Size(a)
    ensures Runes(a) == [First(a)] + Runes(a[Size(a)..]) && Runes(a + b) == [First(a)] + Runes(a[Size(a)..] + b)
  {
    FirstOf(a, b);
    hide Size, First, Starts, Whole;
  }

  lemma Assoc(a: seq<Rune>, b: seq<Rune>, c: seq<Rune>)
    ensures (a + b) + c == a + (b + c)
  {}

  /** Text may be cut wherever an encoding can start. */
  lemma {:induction false} CutAtStart(a: seq<byte>, b: seq<byte>)
    requires Starts(b)
    ensures Runes(a + b) == Runes(a) + Runes(b)
    decreases |a|
  {
    if a == [] {
      assert a + b == b;
    } else {
      hide Size, First, Starts, Runes;
      FirstThen(a, b);
      CutAtStart(a[Size(a)..], b);
      Assoc([First(a)], Runes(a[Size(a)..]), Runes(b));
    }
  }

  /** Behind an ASCII character as well. */
  lemma Ascii(b: byte, s: seq<byte>)
    requires b < 0x80
    ensures Runes([b] + s) == [b] + Runes(s)
  {
    assert ([b] + s)[1..] == s && ([b] + s)[..1] == [b];
  }

  lemma Unfold(s: seq<byte>)
    requires s != []
    ensures Runes(s) == [First(s)] + Runes(s[Size(s)..])
  {
    hide First, Size;
  }

  lemma {:induction false} RunesSome(s: seq<byte>)
    ensures |Runes(s)| <= |s| && (s != [] ==> Runes(s) != [] && Runes(s)[0] == First(s))
    decreases |s|
  {
    hide Value;
    if s != [] { RunesSome(s[Size(s)..]); }
  }

  // ---- The first runes ----------------------------------------------------

  /** How many bytes the first k runes take. */
  function End(s: seq<byte>, k: nat): (end: nat)
    requires k <= |Runes(s)|
    ensures end <= |s|
    decreases k
  {
    if k == 0 then 0 else Size(s) + End(s[Size(s)..], k - 1)
  }

  lemma TakeBehind(x: Rune, xs: seq<Rune>, k: nat)
    requires 0 < k <= |xs| + 1
    ensures ([x] + xs)[..k] == [x] + xs[..k - 1] && ([x] + xs)[k..] == xs[k - 1..]
  {}

  lemma EndStep(a: seq<byte>, b: seq<byte>)
    requires a != [] && Size(a + b) <= |a|
    ensures (a + b)[Size(a + b)..] == a[Size(a + b)..] + b
    ensures Runes(a) == [First(a + b)] + Runes(a[Size(a + b)..])
    ensures Runes(a + b) == [First(a + b)] + Runes((a + b)[Size(a + b)..])
  {
    FirstOf(a, b);
    FirstThen(a, b);
  }

  /** They are decoded alike without the others. */
  lemma {:induction false} EndCuts(s: seq<byte>, k: nat)
    requires k <= |Runes(s)|
    ensures Runes(s[..End(s, k)]) == Runes(s)[..k] && Runes(s[End(s, k)..]) == Runes(s)[k..]
    ensures k >= 1 ==> End(s, k) >= 1
    decreases k
  {
    hide Value, Whole, Size, First, Starts, Runes;
    if k > 0 {
      RunesSome(s);
      var n, rest := Size(s), s[Size(s)..];
      Unfold(s);
      EndCuts(rest, k - 1);
      var end := End(rest, k - 1);
      assert End(s, k) == n + end;
      hide End;
      var a, b := s[..n + end], s[n + end..];
      assert s == a + b && a[n..] == rest[..end] && rest[end..] == b;
      EndStep(a, b);
      TakeBehind(First(s), Runes(rest), k);
    } else {
      RunesSome([]);
      assert s[..0] == [] && s[0..] == s;
    }
  }

  /** One rune more. */
  lemma {:induction false} EndNext(s: seq<byte>, k: nat)
    requires k < |Runes(s)|
    ensures End(s, k) < |s| && End(s, k + 1) == End(s, k) + Size(s[End(s, k)..])
    decreases k
  {
    hide Size, First;
    if k > 0 {
      var n, rest := Size(s), s[Size(s)..];
      EndNext(rest, k - 1);
      assert s[End(s, k)..] == rest[End(rest, k - 1)..];
    } else {
      assert s[0..] == s && End(s[Size(s)..], 0) == 0;
    }
  }

  // ---- The last rune ------------------------------------------------------

  /** s ends with a well-formed encoding of k bytes. */
  predicate EndsWith(s: seq<byte>, k: nat) {
    1 <= k <= |s| && Whole(s[|s| - k..]) && Need(s[|s| - k]) == k
  }

  function LastSize(s: seq<byte>): (n: nat)
    requires s != []
    ensures 1 <= n <= |s|
  {
    if EndsWith(s, 2) then 2 else if EndsWith(s, 3) then 3 else if EndsWith(s, 4) then 4 else 1
  }

  function Last(s: seq<byte>): Rune
    requires s != []
  {
    First(s[|s| - LastSize(s)..])
  }

  /** An encoding that ends s starts where a rune of s starts. */
  lemma EndsWithRest(s: seq<byte>, k: nat)
    requires s != [] && Size(s) < |s|
    ensures EndsWith(s, k) <==> EndsWith(s[Size(s)..], k)
  {
    hide Value, Need;
    var n, rest := Size(s), s[Size(s)..];
    if 1 <= k <= |rest| {
      hide Whole;
      assert s[|s| - k..] == rest[|rest| - k..];
    } else if 1 <= k < |s| {
      assert Whole(s) && Continues(s[|s| - k]);
      FollowsIs(s[|s| - k..]);
    } else if k == |s| {
      assert s[0..] == s;
    }
  }

  lemma FollowsIs(s: seq<byte>)
    requires s != [] && Continues(s[0])
    ensures !Whole(s)
  {}

  lemma LastSizeOfRest(s: seq<byte>)
    requires s != [] && Size(s) < |s|
    ensures LastSize(s) == LastSize(s[Size(s)..]) && Last(s) == Last(s[Size(s)..])
  {
    hide EndsWith, Size, First;
    EndsWithRest(s, 2);
    EndsWithRest(s, 3);
    EndsWithRest(s, 4);
    var k, rest := LastSize(s), s[Size(s)..];
    assert LastSize(rest) == k;
    assert s[|s| - k..] == rest[|rest| - k..];
  }

  lemma SizeOf(a: seq<byte>, b: seq<byte>)
    requires a != [] && Size(a + b) <= |a|
    ensures Size(a + b) == Size(a)
  {
    FirstOf(a, b);
  }

  lemma LastStep(a: seq<byte>, b: seq<byte>, last: Rune)
    requires a != [] && Size(a + b) == Size(a) && Runes(a[Size(a)..] + b) == Runes(a[Size(a)..]) + [last]
    ensures Runes(a + b) == Runes(a) + [last]
  {
    hide Size, First, Starts, Whole, Runes;
    FirstThen(a, b);
  }

  /** The last rune, found from the end, is the last of those found from the start. */
  lemma {:induction false} LastIsLast(s: seq<byte>)
    requires s != []
    ensures Runes(s) == Runes(s[..|s| - LastSize(s)]) + [Last(s)]
    decreases |s|
  {
    hide LastSize, Last, First, Size, Starts, Whole, Runes;
    if Size(s) == |s| {
      OnlyRune(s);
      assert s[..0] == s[..|s| - LastSize(s)];
    } else {
      var rest := s[Size(s)..];
      LastIsLast(rest);
      LastSizeOfRest(s);
      var a, b := s[..|s| - LastSize(s)], s[|s| - LastSize(s)..];
      assert s == a + b;
      SizeOf(a, b);
      assert a[Size(a)..] == rest[..|rest| - LastSize(rest)];
      assert a[Size(a)..] + b == rest;
      LastStep(a, b, Last(rest));
    }
  }

  lemma OnlyRune(s: seq<byte>)
    requires s != [] && Size(s) == |s|
    ensures LastSize(s) == |s| && Runes(s) == Runes(s[..0]) + [Last(s)]
  {
    OnlySize(s);
    hide Value, LastSize, Whole, Size;
    assert s[0..] == s && s[|s|..] == [] && s[..0] == [];
  }

  lemma OnlySize(s: seq<byte>)
    requires s != [] && Size(s) == |s|
    ensures LastSize(s) == |s|
  {
    hide Value, Need;
    assert s[0..] == s;
    forall k | 2 <= k < |s| ensures !EndsWith(s, k) {
      assert Continues(s[|s| - k]);
      FollowsIs(s[|s| - k..]);
    }
  }
}
